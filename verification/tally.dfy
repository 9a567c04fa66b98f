/**
 * What the workers compute: per-method counts, per-address counts and the
 * number of 4xx responses over a run of lines, and how two such partial
 * results are merged.
 */
module Tally {
  import opened Options
  import opened Counts
  import opened LogLine
  import opened Chunks

  /** A partial or global aggregate: the three results the parser keeps. */
  datatype Totals = Totals(methods: map<Method, nat>, ips: map<string, nat>, clientErrors: nat)

  /** The aggregate of no lines: both maps empty, no 4xx responses. */
  const Zero := Totals(map[], map[], 0)

  /** A 4xx status: 400 included, 500 excluded. */
  predicate IsClientError(status: nat) {
    400 <= status < 500
  }

  /** What one line adds to an aggregate; a line that does not match adds nothing. */
  function Step(t: Totals, line: string): Totals {
    match Parse(line)
    case None => t
    case Some(rec) =>
      Totals(Upsert(t.methods, rec.verb, 1), Upsert(t.ips, rec.ip, 1),
             if IsClientError(rec.status) then t.clientErrors + 1 else t.clientErrors)
  }

  /** The aggregate of `lines`, taken one line at a time from the front. */
  function Aggregate(lines: seq<string>): Totals {
    if lines == [] then Zero else Step(Aggregate(lines[..|lines| - 1]), lines[|lines| - 1])
  }

  /** Merge of two aggregates: both maps added entrywise, the 4xx counters added. */
  function Combine(a: Totals, b: Totals): Totals {
    Totals(AddAll(a.methods, b.methods), AddAll(a.ips, b.ips), a.clientErrors + b.clientErrors)
  }

  /** The aggregate of each block, merged together from the first block on. */
  function MergeAll(blocks: seq<seq<string>>): Totals {
    if blocks == [] then Zero else Combine(Aggregate(blocks[0]), MergeAll(blocks[1..]))
  }

  // Reference counts, one line at a time, independent of any map.

  /** The number of lines that match the pattern. */
  function Matched(lines: seq<string>): nat {
    if lines == [] then 0
    else Matched(lines[..|lines| - 1]) + if Parse(lines[|lines| - 1]).Some? then 1 else 0
  }

  /** The number of matching lines whose address is `ip`. */
  function IpHits(lines: seq<string>, ip: string): nat {
    if lines == [] then 0
    else
      var p := Parse(lines[|lines| - 1]);
      IpHits(lines[..|lines| - 1], ip) + if p.Some? && p.value.ip == ip then 1 else 0
  }

  /** The number of matching lines whose method is `m`. */
  function MethodHits(lines: seq<string>, m: Method): nat {
    if lines == [] then 0
    else
      var p := Parse(lines[|lines| - 1]);
      MethodHits(lines[..|lines| - 1], m) + if p.Some? && p.value.verb == m then 1 else 0
  }

  /** The number of matching lines whose status is a 4xx. */
  function ClientErrors(lines: seq<string>): nat {
    if lines == [] then 0
    else
      var p := Parse(lines[|lines| - 1]);
      ClientErrors(lines[..|lines| - 1]) + if p.Some? && IsClientError(p.value.status) then 1 else 0
  }

  /** Each address is counted once per matching line that carries it, and is present iff it was seen. */
  lemma {:induction false} IpCounted(lines: seq<string>, ip: string)
    ensures Get(Aggregate(lines).ips, ip) == IpHits(lines, ip)
    ensures ip in Aggregate(lines).ips <==> IpHits(lines, ip) > 0
  {
    if lines != [] {
      IpCounted(lines[..|lines| - 1], ip);
    }
  }

  /** Each method is counted once per matching line that carries it, and is present iff it was seen. */
  lemma {:induction false} MethodCounted(lines: seq<string>, m: Method)
    ensures Get(Aggregate(lines).methods, m) == MethodHits(lines, m)
    ensures m in Aggregate(lines).methods <==> MethodHits(lines, m) > 0
  {
    if lines != [] {
      MethodCounted(lines[..|lines| - 1], m);
    }
  }

  /** The 4xx counter counts exactly the matching lines with 400 <= status < 500. */
  lemma {:induction false} ClientErrorsCounted(lines: seq<string>)
    ensures Aggregate(lines).clientErrors == ClientErrors(lines)
    ensures Aggregate(lines).clientErrors <= Matched(lines)
  {
    if lines != [] {
      ClientErrorsCounted(lines[..|lines| - 1]);
    }
  }

  /**
   * Count conservation: the method counts and the address counts each sum to
   * the number of matching lines.
   */
  lemma {:induction false} CountsConserved(lines: seq<string>)
    ensures Total(Aggregate(lines).methods) == Matched(lines)
    ensures Total(Aggregate(lines).ips) == Matched(lines)
  {
    if lines == [] {
      assert Aggregate(lines) == Zero;
    } else {
      var prefix := lines[..|lines| - 1];
      CountsConserved(prefix);
      var t := Aggregate(prefix);
      match Parse(lines[|lines| - 1])
      case None =>
      case Some(rec) =>
        TotalUpsert(t.methods, rec.verb, 1);
        TotalUpsert(t.ips, rec.ip, 1);
    }
  }

  /** `Zero` is the unit of merging. */
  lemma CombineZero(a: Totals)
    ensures Combine(a, Zero) == a && Combine(Zero, a) == a
  {
    AddAllEmpty(a.methods);
    AddAllEmpty(a.ips);
  }

  lemma CombineCommutes(a: Totals, b: Totals)
    ensures Combine(a, b) == Combine(b, a)
  {
    AddAllCommutes(a.methods, b.methods);
    AddAllCommutes(a.ips, b.ips);
  }

  lemma CombineAssociates(a: Totals, b: Totals, c: Totals)
    ensures Combine(Combine(a, b), c) == Combine(a, Combine(b, c))
  {
    AddAllAssociates(a.methods, b.methods, c.methods);
    AddAllAssociates(a.ips, b.ips, c.ips);
  }

  /** Merging conserves counts: the merged sums are the sums of the parts. */
  lemma CombineConserves(a: Totals, b: Totals)
    ensures Total(Combine(a, b).methods) == Total(a.methods) + Total(b.methods)
    ensures Total(Combine(a, b).ips) == Total(a.ips) + Total(b.ips)
  {
    TotalAddAll(a.methods, b.methods);
    TotalAddAll(a.ips, b.ips);
  }

  /** Counting one more line after a merge is counting it into the right operand. */
  lemma StepCombine(a: Totals, b: Totals, line: string)
    ensures Step(Combine(a, b), line) == Combine(a, Step(b, line))
  {
    match Parse(line)
    case None =>
    case Some(rec) =>
      UpsertAddAll(a.methods, b.methods, rec.verb, 1);
      UpsertAddAll(a.ips, b.ips, rec.ip, 1);
  }

  /**
   * Aggregating two runs of lines separately and merging the results gives
   * the aggregate of the two runs together.
   */
  lemma {:induction false} AggregateAppend(a: seq<string>, b: seq<string>)
    ensures Aggregate(a + b) == Combine(Aggregate(a), Aggregate(b))
    decreases |b|
  {
    if b == [] {
      assert a + b == a;
      CombineZero(Aggregate(a));
    } else {
      var b' := b[..|b| - 1];
      assert (a + b)[..|a + b| - 1] == a + b';
      assert (a + b)[|a + b| - 1] == b[|b| - 1];
      AggregateAppend(a, b');
      StepCombine(Aggregate(a), Aggregate(b'), b[|b| - 1]);
    }
  }

  /** Merging the aggregates of the blocks gives the aggregate of their concatenation. */
  lemma {:induction false} MergeAllFlatten(blocks: seq<seq<string>>)
    ensures MergeAll(blocks) == Aggregate(Flatten(blocks))
  {
    if blocks != [] {
      MergeAllFlatten(blocks[1..]);
      AggregateAppend(blocks[0], Flatten(blocks[1..]));
    }
  }

  /** Merging the block results of two runs of blocks splits at the join. */
  lemma MergeAllAppend(xs: seq<seq<string>>, ys: seq<seq<string>>)
    ensures MergeAll(xs + ys) == Combine(MergeAll(xs), MergeAll(ys))
  {
    MergeAllFlatten(xs + ys);
    MergeAllFlatten(xs);
    MergeAllFlatten(ys);
    FlattenAppend(xs, ys);
    AggregateAppend(Flatten(xs), Flatten(ys));
  }

  /** An item of a sequence's multiset sits at some index, which splits the sequence around it. */
  lemma IndexOf<T>(x: T, ys: seq<T>) returns (i: nat)
    requires x in multiset(ys)
    ensures i < |ys| && ys[i] == x && ys == ys[..i] + ([x] + ys[i + 1..])
  {
    i :| 0 <= i < |ys| && ys[i] == x;
    assert ys == ys[..i] + ([x] + ys[i + 1..]);
  }

  /** Taking the first item off one side and its equal off the other keeps two sequences permutations of each other. */
  lemma PermutationRemove<T>(xs: seq<T>, ys: seq<T>, i: nat)
    requires xs != [] && i < |ys| && ys[i] == xs[0]
    requires multiset(xs) == multiset(ys)
    ensures multiset(xs[1..]) == multiset(ys[..i] + ys[i + 1..])
  {
    var pre, post, rest := ys[..i], ys[i + 1..], xs[1..];
    assert ys == pre + [xs[0]] + post;
    assert xs == [xs[0]] + rest;
    assert multiset(pre + post) == multiset(pre) + multiset(post);
    forall x ensures multiset(rest)[x] == multiset(pre + post)[x] {
      assert multiset(xs)[x] == multiset([xs[0]])[x] + multiset(rest)[x];
      assert multiset(ys)[x] == multiset(pre)[x] + multiset([xs[0]])[x] + multiset(post)[x];
    }
  }

  /** A merged operand can be moved to the front. */
  lemma CombineExchange(p: Totals, a: Totals, q: Totals)
    ensures Combine(p, Combine(a, q)) == Combine(a, Combine(p, q))
  {
    CombineAssociates(p, a, q);
    CombineCommutes(p, a);
    CombineAssociates(a, p, q);
  }

  /** The result of a block inside a run of blocks can be merged first. */
  lemma MergeAllMoveFront(pre: seq<seq<string>>, b: seq<string>, post: seq<seq<string>>)
    ensures MergeAll(pre + ([b] + post)) == Combine(Aggregate(b), MergeAll(pre + post))
  {
    MergeAllAppend(pre, [b] + post);
    MergeAllAppend(pre, post);
    assert ([b] + post)[1..] == post;
    CombineExchange(MergeAll(pre), Aggregate(b), MergeAll(post));
  }

  /**
   * The order in which block results are merged does not matter: any
   * rearrangement of the blocks yields the same totals.
   */
  lemma {:induction false} MergeOrderIrrelevant(blocks: seq<seq<string>>, shuffled: seq<seq<string>>)
    requires multiset(blocks) == multiset(shuffled)
    ensures MergeAll(blocks) == MergeAll(shuffled)
    decreases |blocks|
  {
    if blocks == [] {
      assert |shuffled| == |multiset(shuffled)| == 0;
    } else {
      assert blocks[0] in multiset(blocks);
      var i := IndexOf(blocks[0], shuffled);
      PermutationRemove(blocks, shuffled, i);
      MergeOrderIrrelevant(blocks[1..], shuffled[..i] + shuffled[i + 1..]);
      MergeAllMoveFront(shuffled[..i], blocks[0], shuffled[i + 1..]);
    }
  }
}

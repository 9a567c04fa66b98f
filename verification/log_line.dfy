/**
 * One access-log line and the pattern that extracts a record from it. From
 * the start of the line the pattern wants: the address (a run of
 * non-white-space characters), a space, any text, a space and a double
 * quote, one of GET, POST, PUT or DELETE, a space, any text, a double quote,
 * a space, and a three-digit status; whatever follows is ignored.
 *
 * The matcher below follows the backtracking engine's choice: the first
 * "any text" is greedy, so the request taken is the LAST ` "METHOD ` opener
 * that still leaves a `" ddd` status after it, and the second is greedy too,
 * so the status taken is the LAST `" ddd` of the line.
 */
module LogLine {
  import opened Options

  datatype Method = GET | POST | PUT | DELETE

  /** The text of a method as it appears in a request line. */
  function Name(m: Method): string {
    match m
    case GET => "GET"
    case POST => "POST"
    case PUT => "PUT"
    case DELETE => "DELETE"
  }

  /** What a matching line yields: client address, request method, status code. */
  datatype Record = Record(ip: string, verb: Method, status: nat)

  /**
   * The characters `\s` stands for (and `\S` excludes): the ASCII control
   * white space, NEL, and the Unicode space, line and paragraph separators.
   */
  predicate IsWhiteSpace(c: char) {
    c == ' ' || c == '\t' || c == '\n' || c == '\r' || c == '\U{000B}' || c == '\U{000C}'
    || c == '\U{0085}' || c == '\U{00A0}' || c == '\U{1680}' || '\U{2000}' <= c <= '\U{200A}'
    || c == '\U{2028}' || c == '\U{2029}' || c == '\U{202F}' || c == '\U{205F}' || c == '\U{3000}'
  }

  predicate IsDigit(c: char) {
    '0' <= c <= '9'
  }

  /** Length of the run of non-white-space characters that starts `s`. */
  function TokenLength(s: string): (n: nat)
    ensures n <= |s|
    ensures forall i :: 0 <= i < n ==> !IsWhiteSpace(s[i])
    ensures n == |s| || IsWhiteSpace(s[n])
  {
    if s == [] || IsWhiteSpace(s[0]) then 0 else 1 + TokenLength(s[1..])
  }

  /** `r` holds `" ddd` (quote, space, three digits) at position `j`. */
  predicate StatusAt(r: string, j: nat) {
    j + 5 <= |r| && r[j] == '"' && r[j + 1] == ' '
    && IsDigit(r[j + 2]) && IsDigit(r[j + 3]) && IsDigit(r[j + 4])
  }

  /** The value of an ASCII decimal digit. */
  function DigitValue(c: char): (d: nat)
    requires IsDigit(c)
    ensures d < 10 && d == c as int - '0' as int
  {
    c as int - '0' as int
  }

  /** Three decimal digits, read as a number, give back each digit. */
  lemma ThreeDigits(h: nat, t: nat, u: nat)
    requires h < 10 && t < 10 && u < 10
    ensures (100 * h + 10 * t + u) / 100 == h
    ensures (100 * h + 10 * t + u) / 10 % 10 == t
    ensures (100 * h + 10 * t + u) % 10 == u
  {
    var v := 100 * h + 10 * t + u;
    assert v / 10 == 10 * h + t;
  }

  /** The three-digit number of a `" ddd` at `j`: its hundreds, tens and units are the three digits. */
  function StatusValue(r: string, j: nat): (v: nat)
    requires StatusAt(r, j)
    ensures v < 1000
    ensures v / 100 == r[j + 2] as int - '0' as int
    ensures v / 10 % 10 == r[j + 3] as int - '0' as int
    ensures v % 10 == r[j + 4] as int - '0' as int
  {
    var h, t, u := DigitValue(r[j + 2]), DigitValue(r[j + 3]), DigitValue(r[j + 4]);
    ThreeDigits(h, t, u);
    100 * h + 10 * t + u
  }

  /** The last position below `hi` where a `" ddd` status starts. */
  function LastStatus(r: string, hi: nat): (o: Option<nat>)
    ensures o.Some? ==> o.value < hi && StatusAt(r, o.value)
    ensures o.Some? ==> forall j: nat :: o.value < j < hi ==> !StatusAt(r, j)
    ensures o.None? ==> forall j: nat :: j < hi ==> !StatusAt(r, j)
  {
    if hi == 0 then None
    else if StatusAt(r, hi - 1) then Some(hi - 1)
    else LastStatus(r, hi - 1)
  }

  /**
   * `r` holds ` "M ` (space, quote, the method, space) at `q`, ending no
   * later than the status at `j`.
   */
  predicate RequestAt(r: string, q: nat, m: Method, j: nat) {
    var e := q + 2 + |Name(m)|;
    e + 1 <= j <= |r| && r[q] == ' ' && r[q + 1] == '"' && r[q + 2..e] == Name(m) && r[e] == ' '
  }

  /** The method of a request opener at `q`, tried in the pattern's order. */
  function RequestMethod(r: string, q: nat, j: nat): (o: Option<Method>)
    ensures o.Some? ==> RequestAt(r, q, o.value, j)
    ensures o.None? ==> forall m :: !RequestAt(r, q, m, j)
  {
    if RequestAt(r, q, GET, j) then Some(GET)
    else if RequestAt(r, q, POST, j) then Some(POST)
    else if RequestAt(r, q, PUT, j) then Some(PUT)
    else if RequestAt(r, q, DELETE, j) then Some(DELETE)
    else None
  }

  /**
   * The last position below `hi` holding a request opener that fits before
   * the status at `j`, with the method found there.
   */
  function LastRequest(r: string, hi: nat, j: nat): (o: Option<(nat, Method)>)
    ensures o.Some? ==> o.value.0 < hi && RequestAt(r, o.value.0, o.value.1, j)
    ensures o.Some? ==> forall q: nat, m :: o.value.0 < q < hi ==> !RequestAt(r, q, m, j)
    ensures o.None? ==> forall q: nat, m :: q < hi ==> !RequestAt(r, q, m, j)
  {
    if hi == 0 then None
    else match RequestMethod(r, hi - 1, j)
      case Some(m) => Some((hi - 1, m))
      case None => LastRequest(r, hi - 1, j)
  }

  /**
   * The match of the pattern after the address, in the rest `r` of a line:
   * the method and the status, or `None` when no opener fits before a
   * status. The status is the last one in `r`, and the method is that of the
   * last opener fitting before it, as the backtracking engine's greedy
   * "any text" groups choose them.
   */
  function MatchRequest(r: string): (o: Option<(Method, nat)>)
    ensures o.Some? ==> o.value.1 < 1000
  {
    match LastStatus(r, |r|)
    case None => None
    case Some(j) =>
      match LastRequest(r, j, j)
      case None => None
      case Some((_, m)) => Some((m, StatusValue(r, j)))
  }

  /**
   * The regular-expression match of one line, or `None` when the line does
   * not match. The address is the leading non-white-space token, which must
   * be followed by a space; the rest must hold a request opener followed,
   * later, by a status.
   */
  function Parse(line: string): (o: Option<Record>)
    ensures o.Some? ==> o.value.status < 1000
    ensures o.Some? ==>
      var n := |o.value.ip|;
      0 < n < |line| && line[..n] == o.value.ip && line[n] == ' '
      && forall i :: 0 <= i < n ==> !IsWhiteSpace(line[i])
  {
    var n := TokenLength(line);
    if n == 0 || n == |line| || line[n] != ' ' then None
    else
      match MatchRequest(line[n + 1..])
      case None => None
      case Some((m, status)) => Some(Record(line[..n], m, status))
  }

  /** Some request opener in `r` fits before some status. */
  ghost predicate HasRequest(r: string) {
    exists j: nat, q: nat, m :: RequestAt(r, q, m, j) && StatusAt(r, j)
  }

  /** An opener that fits before a status also fits before any later status. */
  lemma RequestFitsLater(r: string, q: nat, m: Method, j: nat, k: nat)
    requires RequestAt(r, q, m, j) && j <= k <= |r|
    ensures RequestAt(r, q, m, k)
  {
  }

  /** The rest of a line matches exactly when some opener fits before some status. */
  lemma {:induction false} MatchRequestFound(r: string)
    ensures MatchRequest(r).Some? <==> HasRequest(r)
  {
    match LastStatus(r, |r|)
    case None =>
    case Some(j) =>
      var o := LastRequest(r, j, j);
      if o.Some? {
        assert RequestAt(r, o.value.0, o.value.1, j) && StatusAt(r, j);
      }
      if HasRequest(r) {
        var j0: nat, q0: nat, m0 :| RequestAt(r, q0, m0, j0) && StatusAt(r, j0);
        RequestFitsLater(r, q0, m0, j0, j);
      }
  }

  /**
   * A line matches exactly when its leading token is non-empty and followed
   * by a space, and the rest of the line holds some request opener that fits
   * before some status. Which opener and which status are used does not
   * decide whether the line matches.
   */
  lemma ParseMatches(line: string)
    ensures Parse(line).Some? <==>
      0 < TokenLength(line) < |line| && line[TokenLength(line)] == ' '
      && HasRequest(line[TokenLength(line) + 1..])
  {
    var n := TokenLength(line);
    if 0 < n < |line| && line[n] == ' ' {
      MatchRequestFound(line[n + 1..]);
    }
  }

  /**
   * The regular-expression engine's choice in the rest `r` of a line: the
   * status at `j` is the last one in `r`, and the opener at `q`, for method
   * `m`, is the last one that fits before it.
   */
  ghost predicate GreedyChoice(r: string, q: nat, m: Method, j: nat) {
    StatusAt(r, j) && (forall k: nat :: j < k < |r| ==> !StatusAt(r, k))
    && q < j && RequestAt(r, q, m, j) && (forall p: nat, m' :: q < p < j ==> !RequestAt(r, p, m', j))
  }

  /** At most one method's opener fits at a position. */
  lemma MethodUnique(r: string, q: nat, m: Method, m': Method, j: nat)
    requires RequestAt(r, q, m, j) && RequestAt(r, q, m', j)
    ensures m == m'
  {
    assert r[q + 2] == Name(m)[0] == Name(m')[0];
    assert r[q + 3] == Name(m)[1] == Name(m')[1];
    match m
    case GET =>
    case POST =>
    case PUT =>
    case DELETE =>
  }

  /** Whenever some opener fits before some status, the greedy choice exists. */
  lemma GreedyExists(r: string)
    requires HasRequest(r)
    ensures exists q: nat, m, j: nat :: GreedyChoice(r, q, m, j)
  {
    MatchRequestFound(r);
    var j := LastStatus(r, |r|).value;
    var o := LastRequest(r, j, j);
    assert GreedyChoice(r, o.value.0, o.value.1, j);
  }

  /** The rest of a line with the greedy choice (`q`, `m`, `j`) matches with method `m` and the status at `j`. */
  lemma MatchRequestGreedy(r: string, q: nat, m: Method, j: nat)
    requires GreedyChoice(r, q, m, j)
    ensures MatchRequest(r) == Some((m, StatusValue(r, j)))
  {
    assert LastStatus(r, |r|) == Some(j);
    var o := LastRequest(r, j, j);
    assert o.Some? && o.value.0 == q;
    MethodUnique(r, q, m, o.value.1, j);
  }

  /**
   * A line whose leading token is followed by a space, and whose rest has
   * the greedy choice (`q`, `m`, `j`), parses to that token, method `m` and
   * the status at `j`.
   */
  lemma ParseGreedy(line: string, q: nat, m: Method, j: nat)
    requires 0 < TokenLength(line) < |line| && line[TokenLength(line)] == ' '
    requires GreedyChoice(line[TokenLength(line) + 1..], q, m, j)
    ensures Parse(line) == Some(Record(line[..TokenLength(line)], m, StatusValue(line[TokenLength(line) + 1..], j)))
  {
    MatchRequestGreedy(line[TokenLength(line) + 1..], q, m, j);
  }
}

/**
 * Shared vocabulary of the model: optional values, handler results carrying an
 * HTTP error, the field-presence wrapper of partial updates, and the few string
 * operations Python code gets from `str` (join, split, decimal rendering).
 */
module Common {

  datatype Option<+T> = None | Some(value: T)

  /** An error a handler raises as `HTTPException(status, detail)`. */
  datatype HttpError = HttpError(status: int, detail: string)

  /** The outcome of a request handler: its response data, or the HTTP error it raised. */
  datatype Result<+T> = Ok(value: T) | Err(error: HttpError)

  /**
   * One field of a partial-update body: left out of the request (`Unset`, what
   * `exclude_unset` drops), or given, possibly as an explicit null.
   */
  datatype Field<+T> = Unset | Given(value: Option<T>)

  /** An abstract clock reading (`datetime.now()`, Neo4j's `timestamp()`). */
  type Time = int

  /** The 500 response of an exception no handler catches. */
  const InternalError := HttpError(500, "Internal Server Error")

  /** The 422 response of a request body that fails its schema's field constraints. */
  const ValidationError := HttpError(422, "Unprocessable Entity")

  /** Python's `sep.join(parts)`. */
  function Join(sep: string, parts: seq<string>): (r: string)
    ensures |parts| == 1 ==> r == parts[0]
    ensures |parts| > 1 ==> r == parts[0] + sep + Join(sep, parts[1..])
  {
    if |parts| == 0 then ""
    else if |parts| == 1 then parts[0]
    else parts[0] + sep + Join(sep, parts[1..])
  }

  /** The index of the first occurrence of `c` in `s`. */
  function IndexOf(s: string, c: char): (i: nat)
    requires c in s
    ensures i < |s| && s[i] == c && c !in s[..i]
  {
    if s[0] == c then 0 else 1 + IndexOf(s[1..], c)
  }

  /** Python's `s.split(c)` for a one-character separator. */
  function Split(s: string, c: char): (r: seq<string>)
    ensures |r| >= 1
    ensures forall k :: 0 <= k < |r| ==> c !in r[k]
    decreases |s|
  {
    if c !in s then [s]
    else
      var i := IndexOf(s, c);
      [s[..i]] + Split(s[i + 1..], c)
  }

  lemma {:induction false} IndexOfAfterPrefix(a: string, b: string, c: char)
    requires c !in a
    ensures c in a + [c] + b && IndexOf(a + [c] + b, c) == |a|
  {
    var s := a + [c] + b;
    assert s[|a|] == c;
    if a != [] {
      assert s[0] == a[0] && a[0] != c;
      assert s[1..] == a[1..] + [c] + b;
      assert c !in a[1..] by { assert forall k :: 0 <= k < |a| - 1 ==> a[1..][k] == a[k + 1]; }
      IndexOfAfterPrefix(a[1..], b, c);
    }
  }

  /**
   * Splitting a join on the same one-character separator gives the parts back,
   * when no part contains the separator.
   */
  lemma {:induction false} SplitJoin(parts: seq<string>, c: char)
    requires |parts| >= 1
    requires forall k :: 0 <= k < |parts| ==> c !in parts[k]
    ensures Split(Join([c], parts), c) == parts
  {
    if |parts| > 1 {
      var rest := Join([c], parts[1..]);
      assert Join([c], parts) == parts[0] + [c] + rest;
      IndexOfAfterPrefix(parts[0], rest, c);
      var s := parts[0] + [c] + rest;
      assert s[..|parts[0]|] == parts[0];
      assert s[|parts[0]| + 1..] == rest;
      SplitJoin(parts[1..], c);
      assert parts == [parts[0]] + parts[1..];
    }
  }

  function DigitChar(d: nat): (c: char)
    requires d < 10
    ensures '0' <= c <= '9'
  {
    "0123456789"[d]
  }

  /** Decimal rendering of a natural number, as `str(n)` / f-string interpolation. */
  function NatToString(n: nat): (s: string)
    ensures |s| >= 1
    ensures forall k :: 0 <= k < |s| ==> '0' <= s[k] <= '9'
  {
    if n < 10 then [DigitChar(n)] else NatToString(n / 10) + [DigitChar(n % 10)]
  }

  /** Decimal rendering of an integer, with a leading '-' when negative. */
  function IntToString(i: int): (s: string)
    ensures |s| >= 1
    ensures s[0] == '-' <==> i < 0
  {
    if i < 0 then "-" + NatToString(-i) else NatToString(i)
  }

  predicate IsPrefix(p: string, s: string)
  {
    |p| <= |s| && s[..|p|] == p
  }
}

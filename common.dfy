/** Shared vocabulary of the rental server and client: optional values, the
    authenticated caller, HTTP responses, and the string and time helpers the
    handlers use (JavaScript `includes`, `toLowerCase`, `trim`, and midnight
    normalisation of an instant). */
module Common {

  datatype Option<+T> = None | Some(value: T)

  /** The role carried by an authenticated user. `Unrecognised` stands for a
      role string outside the three the application knows. */
  datatype Role = Renter | Owner | Admin | Unrecognised(name: string)

  type UserId = nat

  /** The identity the authentication middleware attaches to a request. */
  datatype User = User(id: UserId, role: Role)

  /** An HTTP answer: a success status with a body, or an error status with
      the message the handler puts in its JSON body. */
  datatype Response<+T> = Ok(status: int, value: T) | Err(status: int, message: string)

  const OK: int := 200
  const CREATED: int := 201
  const BAD_REQUEST: int := 400
  const FORBIDDEN: int := 403
  const NOT_FOUND: int := 404
  const GONE: int := 410
  const SERVER_ERROR: int := 500

  /** Milliseconds in a day and in ten minutes. */
  const DAY_MS: int := 1000 * 60 * 60 * 24
  const TEN_MINUTES_MS: int := 10 * 60 * 1000

  /** The day an instant (milliseconds since the epoch) falls on. */
  function DayNumber(t: int): int {
    t / DAY_MS
  }

  /** `setHours(0, 0, 0, 0)` on an instant: the midnight that starts its day
      (UTC; the local zone is not modelled). */
  function Midnight(t: int): (m: int)
    ensures m <= t < m + DAY_MS
    ensures m == DayNumber(t) * DAY_MS
  {
    t - t % DAY_MS
  }

  /** `sub` occurs in `s` starting at index `i`. */
  predicate OccursAt(s: string, sub: string, i: int) {
    0 <= i && i + |sub| <= |s| && s[i..i + |sub|] == sub
  }

  /** JavaScript `a.includes(b)` on strings, computed by scanning. */
  function Includes(s: string, sub: string): (b: bool)
    ensures b <==> exists i :: OccursAt(s, sub, i)
    decreases |s|
  {
    if |sub| > |s| then false
    else if s[..|sub|] == sub then assert OccursAt(s, sub, 0); true
    else
      var rest := Includes(s[1..], sub);
      assert forall i :: OccursAt(s, sub, i) <==> (i >= 1 && OccursAt(s[1..], sub, i - 1)) by {
        forall i | i >= 1 ensures OccursAt(s, sub, i) <==> OccursAt(s[1..], sub, i - 1) {
          if i + |sub| <= |s| {
            var t := s[1..];
            var u, w := t[i - 1..i - 1 + |sub|], s[i..i + |sub|];
            assert forall k :: 0 <= k < |sub| ==> u[k] == w[k];
            assert u == w;
          }
        }
      }
      assert rest ==> exists i :: OccursAt(s, sub, i) by {
        if rest {
          var j :| OccursAt(s[1..], sub, j);
          assert OccursAt(s, sub, j + 1);
        }
      }
      rest
  }

  /** `toLowerCase` of one character, for the ASCII letters. */
  function LowerChar(c: char): (d: char)
    ensures 'A' <= c <= 'Z' ==> 'a' <= d <= 'z'
    ensures !('A' <= c <= 'Z') ==> d == c
  {
    if 'A' <= c <= 'Z' then (c as int + 32) as char else c
  }

  /** `toLowerCase` of a string (ASCII letters only). */
  function Lower(s: string): (r: string)
    ensures |r| == |s|
    ensures forall i :: 0 <= i < |s| ==> r[i] == LowerChar(s[i])
  {
    if s == [] then [] else [LowerChar(s[0])] + Lower(s[1..])
  }

  /** The characters `String.prototype.trim` removes: ECMAScript WhiteSpace
      and LineTerminator code points. */
  predicate IsJsSpace(c: char) {
    var n := c as int;
    n == 0x09 || n == 0x0A || n == 0x0B || n == 0x0C || n == 0x0D || n == 0x20
    || n == 0xA0 || n == 0x1680 || (0x2000 <= n <= 0x200A) || n == 0x2028
    || n == 0x2029 || n == 0x202F || n == 0x205F || n == 0x3000 || n == 0xFEFF
  }

  function TrimStart(s: string): (r: string)
    ensures |r| <= |s| && r == s[|s| - |r|..]
    ensures forall i :: 0 <= i < |s| - |r| ==> IsJsSpace(s[i])
    ensures r != [] ==> !IsJsSpace(r[0])
  {
    if s != [] && IsJsSpace(s[0]) then TrimStart(s[1..]) else s
  }

  function TrimEnd(s: string): (r: string)
    ensures |r| <= |s| && r == s[..|r|]
    ensures forall i :: |r| <= i < |s| ==> IsJsSpace(s[i])
    ensures r != [] ==> !IsJsSpace(r[|r| - 1])
  {
    if s != [] && IsJsSpace(s[|s| - 1]) then TrimEnd(s[..|s| - 1]) else s
  }

  /** `String.prototype.trim`, which Mongoose applies to fields declared with
      `trim: true` before it validates them. The result is the input with its
      leading and trailing space removed; it is empty exactly when the input
      holds only space. */
  function Trim(s: string): (r: string)
    ensures exists a :: TrimmedAt(s, r, a)
    ensures exists i :: OccursAt(s, r, i)
    ensures r != [] ==> !IsJsSpace(r[0]) && !IsJsSpace(r[|r| - 1])
    ensures r == [] <==> forall i :: 0 <= i < |s| ==> IsJsSpace(s[i])
  {
    var a := TrimStart(s);
    var r := TrimEnd(a);
    var start := |s| - |a|;
    assert r == s[start..start + |r|];
    assert TrimmedAt(s, r, start);
    assert OccursAt(s, r, start);
    assert r == [] ==> a == [];
    assert r != [] ==> !IsJsSpace(s[|s| - |a|]);
    r
  }

  /** `r` is the part of `s` from `a` on, with only space before `a` and
      after the part. */
  predicate TrimmedAt(s: string, r: string, a: int) {
    && 0 <= a && a + |r| <= |s| && r == s[a..a + |r|]
    && (forall i :: 0 <= i < a ==> IsJsSpace(s[i]))
    && (forall i :: a + |r| <= i < |s| ==> IsJsSpace(s[i]))
  }

  /** An inclusive window on an instant: a missing bound does not restrict. */
  predicate InWindow(t: int, from: Option<int>, to: Option<int>) {
    (from.None? || from.value <= t) && (to.None? || t <= to.value)
  }

  /** The positions of `s` whose element satisfies `keep`, in increasing
      order: a `find` or `filter` over a collection, answered with ids. */
  function Select<T>(s: seq<T>, keep: T -> bool): (r: seq<nat>)
    ensures forall k :: k in r <==> 0 <= k < |s| && keep(s[k])
    ensures forall a, b :: 0 <= a < b < |r| ==> r[a] < r[b]
    ensures forall a :: 0 <= a < |r| ==> r[a] < |s|
  {
    if s == [] then []
    else
      var prev := Select(s[..|s| - 1], keep);
      if keep(s[|s| - 1]) then prev + [|s| - 1] else prev
  }

  /** The first position of `s` whose element satisfies `keep`: a `findOne`
      or `findOneAndUpdate` over a collection in insertion order. */
  function FirstWhere<T>(s: seq<T>, keep: T -> bool): (r: Option<nat>)
    ensures r.None? <==> forall k :: 0 <= k < |s| ==> !keep(s[k])
    ensures r.Some? ==> r.value < |s| && keep(s[r.value])
    ensures r.Some? ==> forall k :: 0 <= k < r.value ==> !keep(s[k])
  {
    var ids := Select(s, keep);
    if ids == [] then None
    else
      assert ids[0] in ids;
      assert forall k :: 0 <= k < ids[0] ==> !keep(s[k]);
      Some(ids[0])
  }
}

/**
 * JavaScript strings as sequences of UTF-16 code units: `length`, indexing,
 * the regular-expression `.` and the `{m,n}` quantifier all count code units.
 */
module Utf16 {

  /** One UTF-16 code unit. */
  newtype Unit = x: int | 0 <= x < 0x1_0000

  type Text = seq<Unit>

  /**
   * ECMAScript WhiteSpace and LineTerminator code units: the class `\s`
   * matches and `String.prototype.trim` strips exactly these.
   */
  predicate IsWs(u: Unit) {
    || u == 0x09 || u == 0x0A || u == 0x0B || u == 0x0C || u == 0x0D || u == 0x20
    || u == 0xA0 || u == 0x1680 || (0x2000 <= u <= 0x200A) || u == 0x2028 || u == 0x2029
    || u == 0x202F || u == 0x205F || u == 0x3000 || u == 0xFEFF
  }

  /** The code units the regular-expression `.` does not match. */
  predicate IsLineTerminator(u: Unit) {
    u == 0x0A || u == 0x0D || u == 0x2028 || u == 0x2029
  }

  /** The class `[a-zA-Z]`. */
  predicate IsAsciiLetter(u: Unit) {
    (0x41 <= u <= 0x5A) || (0x61 <= u <= 0x7A)
  }

  predicate AllWs(s: Text) {
    forall k :: 0 <= k < |s| ==> IsWs(s[k])
  }

  /** Where `trim` starts: the number of leading whitespace units. */
  function LeadingWs(s: Text): (n: nat)
    ensures n <= |s|
    ensures forall k :: 0 <= k < n ==> IsWs(s[k])
    ensures n < |s| ==> !IsWs(s[n])
  {
    if s != [] && IsWs(s[0]) then
      var n := 1 + LeadingWs(s[1..]);
      assert forall k :: 1 <= k < n ==> s[k] == s[1..][k - 1];
      n
    else 0
  }

  /** Where `trim` ends: the index just past the last unit that is not whitespace (0 if none). */
  function TextEnd(s: Text): (m: nat)
    ensures m <= |s|
    ensures forall k :: m <= k < |s| ==> IsWs(s[k])
    ensures m > 0 ==> !IsWs(s[m - 1])
  {
    if s != [] && IsWs(s[|s| - 1]) then
      var m := TextEnd(s[..|s| - 1]);
      assert forall k :: m <= k < |s| - 1 ==> s[k] == s[..|s| - 1][k];
      m
    else |s|
  }

  /**
   * `String.prototype.trim`: the slice of `s` that starts after the leading
   * whitespace and leaves only whitespace behind it; empty exactly when `s`
   * is all whitespace.
   */
  function Trim(s: Text): (r: Text)
    ensures LeadingWs(s) + |r| <= |s|
    ensures r == s[LeadingWs(s)..LeadingWs(s) + |r|]
    ensures forall k :: LeadingWs(s) + |r| <= k < |s| ==> IsWs(s[k])
    ensures r == [] <==> AllWs(s)
    ensures r != [] ==> !IsWs(r[0]) && !IsWs(r[|r| - 1])
  {
    var lo, hi := LeadingWs(s), TextEnd(s);
    if lo < hi then
      assert s[lo..hi][0] == s[lo] && s[lo..hi][hi - lo - 1] == s[hi - 1];
      s[lo..hi]
    else
      assert lo == |s|;
      []
  }

  lemma TrimIdempotent(s: Text)
    ensures Trim(Trim(s)) == Trim(s)
  {
    var r := Trim(s);
    if r != [] {
      assert LeadingWs(r) == 0;
      assert TextEnd(r) == |r|;
      assert r[0..|r|] == r;
    }
  }
}

/**
 * The JavaScript string operations the application relies on, over `seq<char>`:
 * `startsWith`, `includes` and `trim`. Two helpers, the first and last index of one
 * character, define the match of `/\{[\s\S]*\}/` and `split('/')[0]`.
 */
module Text {

  import opened Wrappers

  /** `s.startsWith(p)` */
  predicate StartsWith(s: string, p: string) {
    |p| <= |s| && s[..|p|] == p
  }

  /** `sub` occurs in `s` at position `i`. */
  predicate OccursAt(s: string, sub: string, i: int) {
    0 <= i && i + |sub| <= |s| && s[i..i + |sub|] == sub
  }

  /** `s.includes(sub)` */
  predicate Includes(s: string, sub: string) {
    exists i | 0 <= i <= |s| - |sub| :: OccursAt(s, sub, i)
  }

  /** A string that contains `sub` contains every character of `sub`. */
  lemma IncludesChars(s: string, sub: string, c: char)
    requires Includes(s, sub) && c in sub
    ensures c in s
  {
    var i :| 0 <= i <= |s| - |sub| && OccursAt(s, sub, i);
    var k :| 0 <= k < |sub| && sub[k] == c;
    assert s[i..i + |sub|][k] == c;
    assert s[i + k] == c;
  }

  /** So a string lacking one character of `sub` does not include `sub`. */
  lemma MissingCharExcludes(s: string, sub: string, c: char)
    requires c in sub && c !in s
    ensures !Includes(s, sub)
  {
    if Includes(s, sub) {
      IncludesChars(s, sub, c);
    }
  }

  /** A known occurrence witnesses `includes`. */
  lemma OccursAtIncludes(s: string, sub: string, i: int)
    requires OccursAt(s, sub, i)
    ensures Includes(s, sub)
  {
  }

  /**
   * ECMAScript WhiteSpace and LineTerminator code points: what `String.prototype.trim`
   * removes from both ends (tab, VT, FF, space, NBSP, ZWNBSP, the Zs category, LF, CR,
   * LS and PS).
   */
  predicate IsWhiteSpace(c: char) {
    c == '\t' || c == '\U{000B}' || c == '\U{000C}' || c == ' ' || c == '\U{00A0}' ||
    c == '\U{FEFF}' || c == '\U{1680}' || ('\U{2000}' <= c <= '\U{200A}') ||
    c == '\U{202F}' || c == '\U{205F}' || c == '\U{3000}' ||
    c == '\n' || c == '\r' || c == '\U{2028}' || c == '\U{2029}'
  }

  predicate AllWhiteSpace(s: string) {
    forall i :: 0 <= i < |s| ==> IsWhiteSpace(s[i])
  }

  /** Neither the first nor the last character of `s` is white space. */
  predicate NoEdgeWhiteSpace(s: string) {
    s == [] || (!IsWhiteSpace(s[0]) && !IsWhiteSpace(s[|s| - 1]))
  }

  /** The number of white-space characters at the start of `s`. */
  function LeadingWhiteSpace(s: string): (k: nat)
    ensures k <= |s|
    ensures AllWhiteSpace(s[..k])
    ensures k == |s| || !IsWhiteSpace(s[k])
  {
    if |s| > 0 && IsWhiteSpace(s[0]) then
      var k' := LeadingWhiteSpace(s[1..]);
      assert s[1..][..k'] == s[1..k' + 1];
      k' + 1
    else 0
  }

  /** The length of `s` once the white space at its end is dropped. */
  function TrailingStart(s: string): (k: nat)
    ensures k <= |s|
    ensures AllWhiteSpace(s[k..])
    ensures k == 0 || !IsWhiteSpace(s[k - 1])
  {
    if |s| > 0 && IsWhiteSpace(s[|s| - 1]) then
      var k' := TrailingStart(s[..|s| - 1]);
      assert s[..|s| - 1][k'..] == s[k'..|s| - 1];
      k'
    else |s|
  }

  /** `s.trim()` */
  function Trim(s: string): (r: string)
    ensures exists a: nat, b: nat :: a <= b <= |s| && r == s[a..b] && AllWhiteSpace(s[..a]) && AllWhiteSpace(s[b..])
    ensures NoEdgeWhiteSpace(r)
    ensures r == [] <==> AllWhiteSpace(s)
    ensures NoEdgeWhiteSpace(s) ==> r == s
  {
    var a := LeadingWhiteSpace(s);
    var b := a + TrailingStart(s[a..]);
    assert s[a..][TrailingStart(s[a..])..] == s[b..];
    assert s[a..][..TrailingStart(s[a..])] == s[a..b];
    if a == |s| then
      s[a..b]
    else
      assert !IsWhiteSpace(s[a]);
      assert b > a;
      s[a..b]
  }

  /** Trimming twice trims no further. */
  lemma TrimIdempotent(s: string)
    ensures Trim(Trim(s)) == Trim(s)
  {
  }

  /** The index of the first `c` in `s` (`s.indexOf(c)`, with -1 as None). */
  function FirstIndexOf(s: string, c: char): (r: Option<nat>)
    ensures r.Some? ==> r.value < |s| && s[r.value] == c && c !in s[..r.value]
    ensures r.None? <==> c !in s
  {
    if |s| == 0 then None
    else if s[0] == c then Some(0)
    else
      match FirstIndexOf(s[1..], c)
      case None => None
      case Some(k) =>
        assert s[..k + 1] == [s[0]] + s[1..][..k];
        Some(k + 1)
  }

  /** The index of the last `c` in `s` (`s.lastIndexOf(c)`, with -1 as None). */
  function LastIndexOf(s: string, c: char): (r: Option<nat>)
    ensures r.Some? ==> r.value < |s| && s[r.value] == c && c !in s[r.value + 1..]
    ensures r.None? <==> c !in s
  {
    if |s| == 0 then None
    else if s[|s| - 1] == c then Some(|s| - 1)
    else
      var init := s[..|s| - 1];
      assert s == init + [s[|s| - 1]];
      match LastIndexOf(init, c)
      case None => None
      case Some(k) =>
        assert s[k + 1..] == init[k + 1..] + [s[|s| - 1]];
        Some(k)
  }
}

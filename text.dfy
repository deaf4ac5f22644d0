/**
 * The few `java.lang.String` operations the translator relies on, over `seq<char>`.
 * Case conversion is the ASCII one (`toLowerCase(Locale.ROOT)` and `toLowerCase()`
 * agree on ASCII input).
 */
module Text {

  // ---------- case ----------

  /** `Character.toLowerCase` restricted to ASCII. */
  function LowerChar(c: char): char {
    if 'A' <= c <= 'Z' then (c as int + 32) as char else c
  }

  /** `String.toLowerCase(Locale.ROOT)`, ASCII only. */
  function ToLower(s: string): (r: string)
    ensures |r| == |s|
    ensures forall i :: 0 <= i < |s| ==> r[i] == LowerChar(s[i])
  {
    seq(|s|, i requires 0 <= i < |s| => LowerChar(s[i]))
  }

  /** No upper-case ASCII letter occurs in `s`. */
  predicate IsLower(s: string) {
    forall i :: 0 <= i < |s| ==> !('A' <= s[i] <= 'Z')
  }

  /** `a.equalsIgnoreCase(b)` for ASCII text. */
  predicate EqualsIgnoreCase(a: string, b: string) {
    ToLower(a) == ToLower(b)
  }

  lemma ToLowerIsLower(s: string)
    ensures IsLower(ToLower(s))
  {
  }

  /** Lower-case text is left alone by `toLowerCase`. */
  lemma LowerFixed(s: string)
    requires IsLower(s)
    ensures ToLower(s) == s
  {
    assert forall i :: 0 <= i < |s| ==> ToLower(s)[i] == s[i];
  }

  /** `toLowerCase` is idempotent. */
  lemma ToLowerIdempotent(s: string)
    ensures ToLower(ToLower(s)) == ToLower(s)
  {
    ToLowerIsLower(s);
    LowerFixed(ToLower(s));
  }

  /** Lower-casing only touches the letters `A`..`Z`, so a non-letter is kept out. */
  lemma ToLowerKeepsOut(s: string, c: char)
    requires c !in s
    requires !('A' <= c <= 'Z') && !('a' <= c <= 'z')
    ensures c !in ToLower(s)
  {
  }

  // ---------- prefixes and search ----------

  /** `s.startsWith(p)`. */
  predicate StartsWith(s: string, p: string) {
    |p| <= |s| && s[..|p|] == p
  }

  /** `s.endsWith(p)`. */
  predicate EndsWith(s: string, p: string) {
    |p| <= |s| && s[|s| - |p|..] == p
  }

  /** `s.indexOf(c)`: the first position of `c`, or -1 when `c` does not occur. */
  function IndexOf(s: string, c: char): (r: int)
    ensures -1 <= r < |s|
    ensures r == -1 <==> c !in s
    ensures r >= 0 ==> s[r] == c && c !in s[..r]
  {
    if |s| == 0 then -1
    else if s[0] == c then 0
    else
      var k := IndexOf(s[1..], c);
      assert s[1..][..if k < 0 then 0 else k] == s[1..1 + if k < 0 then 0 else k];
      if k == -1 then -1 else k + 1
  }

  // ---------- white space ----------

  /** The characters `String.trim` removes: every char up to U+0020. */
  predicate IsTrimChar(c: char) {
    c <= ' '
  }

  /** `Character.isWhitespace`, the test behind `String.isBlank`. */
  predicate IsWhitespace(c: char) {
    c == ' ' || '\t' <= c <= '\r' || '\U{1C}' <= c <= '\U{1F}'
    || c == '\U{1680}' || '\U{2000}' <= c <= '\U{2006}' || '\U{2008}' <= c <= '\U{200A}'
    || c == '\U{2028}' || c == '\U{2029}' || c == '\U{205F}' || c == '\U{3000}'
  }

  /** `s.isBlank()`: empty or white space only. */
  predicate IsBlank(s: string) {
    forall i :: 0 <= i < |s| ==> IsWhitespace(s[i])
  }

  /** Neither end of `s` is a char that `trim` removes. */
  predicate IsTrimmed(s: string) {
    s == [] || (!IsTrimChar(s[0]) && !IsTrimChar(s[|s| - 1]))
  }

  /** The first loop of `trim`: from `st`, step over trim chars. */
  function SkipLeading(s: string, st: nat): (k: nat)
    requires st <= |s|
    ensures st <= k <= |s|
    ensures forall i :: st <= i < k ==> IsTrimChar(s[i])
    ensures k == |s| || !IsTrimChar(s[k])
    decreases |s| - st
  {
    if st < |s| && IsTrimChar(s[st]) then SkipLeading(s, st + 1) else st
  }

  /** The second loop of `trim`: shorten `len` while it stays above `st` and ends in a trim char. */
  function SkipTrailing(s: string, st: nat, len: nat): (l: nat)
    requires st <= len <= |s|
    ensures st <= l <= len
    ensures forall i :: l <= i < len ==> IsTrimChar(s[i])
    ensures l == st || !IsTrimChar(s[l - 1])
    decreases len
  {
    if st < len && IsTrimChar(s[len - 1]) then SkipTrailing(s, st, len - 1) else len
  }

  /** `s.trim()`: the substring between the two loops' bounds. */
  function Trim(s: string): (r: string)
    ensures IsTrimmed(r)
    ensures |r| <= |s|
  {
    var st := SkipLeading(s, 0);
    s[st..SkipTrailing(s, st, |s|)]
  }

  /** `trim` of text that is already trimmed changes nothing. */
  lemma TrimOfTrimmed(s: string)
    requires IsTrimmed(s)
    ensures Trim(s) == s
  {
  }

  /** `trim` yields the empty string exactly when every char is a trim char. */
  lemma TrimEmptyIff(s: string)
    ensures Trim(s) == [] <==> forall i :: 0 <= i < |s| ==> IsTrimChar(s[i])
  {
    var st := SkipLeading(s, 0);
    var len := SkipTrailing(s, st, |s|);
    if st < |s| {
      assert !IsTrimChar(s[st]) && st < len;
    }
  }
}

/** Trimming of the task text typed by the user, with the set of
    characters that the ECMAScript `String.prototype.trim` removes: the
    white-space characters (tab, vertical tab, form feed, no-break space,
    byte order mark and the space separators) and the line terminators. */
module Text {

  predicate IsSpace(c: char)
  {
    c == '\t' || c == '\n' || c == '\U{000B}' || c == '\U{000C}' || c == '\r' ||
    c == ' ' || c == '\U{00A0}' || c == '\U{1680}' ||
    ('\U{2000}' <= c <= '\U{200A}') ||
    c == '\U{2028}' || c == '\U{2029}' || c == '\U{202F}' || c == '\U{205F}' ||
    c == '\U{3000}' || c == '\U{FEFF}'
  }

  predicate AllSpace(s: string)
  {
    forall i :: 0 <= i < |s| ==> IsSpace(s[i])
  }

  /** The index of the first non-space of `s` at or after `i`, or |s| when
      there is none: everything skipped is white space. */
  function FirstNonSpace(s: string, i: nat): (n: nat)
    requires i <= |s|
    ensures i <= n <= |s|
    ensures forall k :: i <= k < n ==> IsSpace(s[k])
    ensures n == |s| || !IsSpace(s[n])
    decreases |s| - i
  {
    if i < |s| && IsSpace(s[i]) then FirstNonSpace(s, i + 1) else i
  }

  /** The end of the text in s[lo..j]: the index just after its last
      non-space, or `lo` when there is none; everything skipped is white
      space. */
  function EndOfText(s: string, lo: nat, j: nat): (n: nat)
    requires lo <= j <= |s|
    ensures lo <= n <= j
    ensures forall k :: n <= k < j ==> IsSpace(s[k])
    ensures n == lo || !IsSpace(s[n - 1])
    decreases j
  {
    if lo < j && IsSpace(s[j - 1]) then EndOfText(s, lo, j - 1) else j
  }

  /** `s` without leading and trailing white space: the slice of `s` that
      starts at its first non-space and has only white space before it and
      after it. It is empty exactly when `s` is all white space; otherwise
      it starts and ends with a non-space. */
  function Trim(s: string): (r: string)
    ensures var lo := FirstNonSpace(s, 0);
      lo + |r| <= |s| && r == s[lo..lo + |r|] &&
      (forall k :: 0 <= k < lo ==> IsSpace(s[k])) &&
      (forall k :: lo + |r| <= k < |s| ==> IsSpace(s[k]))
    ensures r == [] <==> AllSpace(s)
    ensures r != [] ==> !IsSpace(r[0]) && !IsSpace(r[|r| - 1])
  {
    var lo := FirstNonSpace(s, 0);
    s[lo..EndOfText(s, lo, |s|)]
  }

  /** Trimming twice trims nothing more. */
  lemma TrimIdempotent(s: string)
    ensures Trim(Trim(s)) == Trim(s)
  {
    var r := Trim(s);
    if r != [] {
      assert FirstNonSpace(r, 0) == 0;
      assert EndOfText(r, 0, |r|) == |r|;
      assert r[0..|r|] == r;
    }
  }
}

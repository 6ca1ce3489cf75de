/** The two string operations the checks apply to captured output: Python's
    `str.strip()` with no argument and the substring test `needle in hay`. */
module Text {

  /** The characters for which Python's `str.isspace()` holds: those that
      `str.strip()` with no argument removes. */
  predicate IsSpace(c: char) {
    || c == ' ' || c == '\t' || c == '\n' || c == '\r'
    || ('\U{000B}' <= c <= '\U{000C}')
    || ('\U{001C}' <= c <= '\U{001F}')
    || c == '\U{0085}' || c == '\U{00A0}' || c == '\U{1680}'
    || ('\U{2000}' <= c <= '\U{200A}')
    || c == '\U{2028}' || c == '\U{2029}' || c == '\U{202F}' || c == '\U{205F}' || c == '\U{3000}'
  }

  predicate AllSpace(s: string) {
    forall k :: 0 <= k < |s| ==> IsSpace(s[k])
  }

  /** No white space at either end. */
  predicate IsTrimmed(s: string) {
    |s| > 0 ==> !IsSpace(s[0]) && !IsSpace(s[|s| - 1])
  }

  /** `r` is the slice of `s` that starts at `i`, with only white space around it. */
  predicate TrimmedAt(r: string, s: string, i: int) {
    && 0 <= i && i + |r| <= |s|
    && s[i..i + |r|] == r
    && AllSpace(s[..i])
    && AllSpace(s[i + |r|..])
  }

  /** The number of white-space characters at the front of `s`. */
  function LeadingSpaces(s: string): (n: nat)
    ensures n <= |s|
    ensures AllSpace(s[..n])
    ensures n < |s| ==> !IsSpace(s[n])
  {
    if |s| > 0 && IsSpace(s[0]) then 1 + LeadingSpaces(s[1..]) else 0
  }

  /** The number of white-space characters at the back of `s`. */
  function TrailingSpaces(s: string): (n: nat)
    ensures n <= |s|
    ensures AllSpace(s[|s| - n..])
    ensures n < |s| ==> !IsSpace(s[|s| - 1 - n])
  {
    if |s| > 0 && IsSpace(s[|s| - 1]) then 1 + TrailingSpaces(s[..|s| - 1]) else 0
  }

  /** Python's `s.strip()`: the input without the white space at both ends. */
  function Strip(s: string): (r: string)
    ensures IsTrimmed(r)
    ensures TrimmedAt(r, s, LeadingSpaces(s))
  {
    var front := LeadingSpaces(s);
    var rest := s[front..];
    var back := TrailingSpaces(rest);
    assert rest[|rest| - back..] == s[|s| - back..];
    rest[..|rest| - back]
  }

  /** Stripping twice strips nothing more: the result of `strip()` has no
      white space left at either end. */
  lemma StripIdempotent(s: string)
    ensures Strip(Strip(s)) == Strip(s)
  {
    var r := Strip(s);
    StripTrimmed(r);
  }

  /** A string with no white space at its ends is its own `strip()`. */
  lemma StripTrimmed(s: string)
    requires IsTrimmed(s)
    ensures Strip(s) == s
  {
    assert LeadingSpaces(s) == 0;
    assert TrailingSpaces(s) == 0;
  }

  /** `needle` occurs in `hay` starting at index `i`. */
  predicate OccursAt(hay: string, needle: string, i: int) {
    0 <= i && i + |needle| <= |hay| && hay[i..i + |needle|] == needle
  }

  /** Python's `needle in hay` on two strings. */
  function Contains(hay: string, needle: string): bool
    decreases |hay|
  {
    if |needle| > |hay| then false
    else if hay[..|needle|] == needle then true
    else Contains(hay[1..], needle)
  }

  /** `Contains` is the substring test: it holds exactly when the needle occurs
      at some index of the haystack. */
  lemma {:induction false} ContainsIff(hay: string, needle: string)
    ensures Contains(hay, needle) <==> exists i :: OccursAt(hay, needle, i)
    decreases |hay|
  {
    if |needle| > |hay| {
    } else if hay[..|needle|] == needle {
      assert OccursAt(hay, needle, 0);
    } else {
      var tail := hay[1..];
      ContainsIff(tail, needle);
      if Contains(tail, needle) {
        var i :| OccursAt(tail, needle, i);
        assert hay[i + 1..i + 1 + |needle|] == tail[i..i + |needle|];
        assert OccursAt(hay, needle, i + 1);
      } else {
        forall i | OccursAt(hay, needle, i)
          ensures false
        {
          assert i != 0;
          assert tail[i - 1..i - 1 + |needle|] == hay[i..i + |needle|];
          assert OccursAt(tail, needle, i - 1);
        }
      }
    }
  }

  /** A string built around a needle contains it. */
  lemma ContainsSplice(before: string, needle: string, after: string)
    ensures Contains(before + needle + after, needle)
  {
    var hay := before + needle + after;
    assert hay[|before|..|before| + |needle|] == needle;
    assert OccursAt(hay, needle, |before|);
    ContainsIff(hay, needle);
  }

  lemma SliceOfSlice(s: string, a: int, b: int, c: int, d: int)
    requires 0 <= a <= b <= |s| && 0 <= c <= d <= b - a
    ensures s[a..b][c..d] == s[a + c..a + d]
  {
    var x, y := s[a..b][c..d], s[a + c..a + d];
    assert forall k :: 0 <= k < |x| ==> x[k] == y[k];
  }

  /** A needle with no white space at its ends occurs in a string padded
      only with white space exactly when it occurs in the padded string. */
  lemma OccursInTrimmed(r: string, s: string, i: int, needle: string, p: int)
    requires TrimmedAt(r, s, i) && |needle| > 0 && IsTrimmed(needle)
    ensures OccursAt(r, needle, p) ==> OccursAt(s, needle, i + p)
    ensures OccursAt(s, needle, p) ==> OccursAt(r, needle, p - i)
  {
    var n := |needle|;
    if OccursAt(r, needle, p) {
      SliceOfSlice(s, i, i + |r|, p, p + n);
    }
    if OccursAt(s, needle, p) {
      assert s[p] == needle[0] && s[p + n - 1] == needle[n - 1];
      SliceOfSlice(s, i, i + |r|, p - i, p - i + n);
    }
  }

  /** Stripping cannot cut into a needle with no white space at its ends:
      such a needle occurs in `strip()` of a string exactly when it occurs in
      the string itself. */
  lemma ContainsStripped(s: string, needle: string)
    requires |needle| > 0 && IsTrimmed(needle)
    ensures Contains(Strip(s), needle) <==> Contains(s, needle)
  {
    var r := Strip(s);
    var i := LeadingSpaces(s);
    ContainsIff(r, needle);
    ContainsIff(s, needle);
    if Contains(r, needle) {
      var p :| OccursAt(r, needle, p);
      OccursInTrimmed(r, s, i, needle, p);
    }
    if Contains(s, needle) {
      var p :| OccursAt(s, needle, p);
      OccursInTrimmed(r, s, i, needle, p);
    }
  }
}

/**
 * The two string primitives the application relies on: Python's `str.strip()`
 * with no argument (removes leading and trailing whitespace) and `str.isdigit()`.
 */
module Text {

  /** Python's `str.isspace` for one code point: the characters `str.strip()` removes. */
  predicate IsSpace(c: char)
  {
    || ('\t' <= c <= '\r')                 // tab, line feed, vertical tab, form feed, carriage return
    || ('\U{1C}' <= c <= '\U{1F}')         // file, group, record and unit separators
    || c == ' '
    || c == '\U{85}' || c == '\U{A0}' || c == '\U{1680}'
    || ('\U{2000}' <= c <= '\U{200A}')
    || c == '\U{2028}' || c == '\U{2029}' || c == '\U{202F}' || c == '\U{205F}' || c == '\U{3000}'
  }

  /** An ASCII decimal digit. */
  predicate IsDigit(c: char)
  {
    '0' <= c <= '9'
  }

  /** `s.isdigit()`: at least one character, and every character a digit. */
  predicate IsDigits(s: string)
  {
    |s| > 0 && forall i :: 0 <= i < |s| ==> IsDigit(s[i])
  }

  predicate AllSpace(s: string)
  {
    forall i :: 0 <= i < |s| ==> IsSpace(s[i])
  }

  /** The number of whitespace characters `s.lstrip()` removes. */
  function LeadingSpaces(s: string): (n: nat)
    ensures n <= |s|
    ensures forall i :: 0 <= i < n ==> IsSpace(s[i])
    ensures n < |s| ==> !IsSpace(s[n])
  {
    if |s| > 0 && IsSpace(s[0]) then 1 + LeadingSpaces(s[1..]) else 0
  }

  /** The number of whitespace characters `s.rstrip()` removes. */
  function TrailingSpaces(s: string): (n: nat)
    ensures n <= |s|
    ensures forall i :: |s| - n <= i < |s| ==> IsSpace(s[i])
    ensures n < |s| ==> !IsSpace(s[|s| - 1 - n])
  {
    if |s| > 0 && IsSpace(s[|s| - 1]) then 1 + TrailingSpaces(s[..|s| - 1]) else 0
  }

  /** `s.strip()`: drops the leading whitespace, then the trailing whitespace of what is left. */
  function Strip(s: string): (r: string)
    ensures r != [] ==> !IsSpace(r[0]) && !IsSpace(r[|r| - 1])
  {
    var a := LeadingSpaces(s);
    s[a..|s| - TrailingSpaces(s[a..])]
  }

  /** A whitespace run followed by a non-whitespace character (or the end) is the whole leading run. */
  lemma LeadingSpacesExactly(s: string, n: nat)
    requires n <= |s|
    requires forall i :: 0 <= i < n ==> IsSpace(s[i])
    requires n < |s| ==> !IsSpace(s[n])
    ensures LeadingSpaces(s) == n
  {
  }

  /** A whitespace run preceded by a non-whitespace character (or the start) is the whole trailing run. */
  lemma TrailingSpacesExactly(s: string, n: nat)
    requires n <= |s|
    requires forall i :: |s| - n <= i < |s| ==> IsSpace(s[i])
    requires n < |s| ==> !IsSpace(s[|s| - 1 - n])
    ensures TrailingSpaces(s) == n
  {
  }

  /** The kept part of `s.strip()` starts right after the leading whitespace. */
  lemma StripKeptPart(s: string)
    ensures var a := LeadingSpaces(s);
            && a + |Strip(s)| <= |s|
            && Strip(s) == s[a..a + |Strip(s)|]
  {
  }

  /** Everything after the kept part of `s.strip()` is whitespace. */
  lemma StripDroppedSuffix(s: string)
    ensures var a := LeadingSpaces(s);
            && a + |Strip(s)| <= |s|
            && AllSpace(s[a + |Strip(s)|..])
  {
    var a := LeadingSpaces(s);
    var l := s[a..];
    var k := |l| - TrailingSpaces(l);
    var t := s[a + k..];
    forall i | 0 <= i < |t|
      ensures IsSpace(t[i])
    {
      assert t[i] == l[k + i];
    }
  }

  /**
   * `s.strip()` is the slice of `s` between an all-whitespace prefix and an
   * all-whitespace suffix: nothing inside the kept part is altered.
   */
  lemma StripIsSlice(s: string)
    ensures var a := LeadingSpaces(s);
            && a + |Strip(s)| <= |s|
            && Strip(s) == s[a..a + |Strip(s)|]
            && AllSpace(s[..a])
            && AllSpace(s[a + |Strip(s)|..])
  {
    StripKeptPart(s);
    StripDroppedSuffix(s);
  }

  /** A string strips to the empty string exactly when it is all whitespace. */
  lemma StripEmptyIff(s: string)
    ensures Strip(s) == [] <==> AllSpace(s)
  {
    StripIsSlice(s);
    var a := LeadingSpaces(s);
    if Strip(s) != [] {
      assert s[a] == Strip(s)[0];
    } else {
      assert s == s[..a] + s[a..];
    }
  }

  /** Stripping leaves a string without surrounding whitespace as it is. */
  lemma StripKeeps(s: string)
    requires s == [] || (!IsSpace(s[0]) && !IsSpace(s[|s| - 1]))
    ensures Strip(s) == s
  {
  }

  /** Padding a string that has no surrounding whitespace with whitespace on both sides strips back to it. */
  lemma StripPadded(pre: string, x: string, post: string)
    requires AllSpace(pre) && AllSpace(post)
    requires x != [] && !IsSpace(x[0]) && !IsSpace(x[|x| - 1])
    ensures Strip(pre + x + post) == x
  {
    var s := pre + x + post;
    forall i | 0 <= i < |pre| ensures IsSpace(s[i]) {
      assert s[i] == pre[i];
    }
    LeadingSpacesExactly(s, |pre|);
    var l := s[|pre|..];
    assert l == x + post;
    forall i | |l| - |post| <= i < |l| ensures IsSpace(l[i]) {
      assert l[i] == post[i - |x|];
    }
    TrailingSpacesExactly(l, |post|);
    assert s[|pre|..|s| - |post|] == x;
  }

  /** `s.strip().strip() == s.strip()`. */
  lemma StripIdempotent(s: string)
    ensures Strip(Strip(s)) == Strip(s)
  {
    StripKeeps(Strip(s));
  }
}

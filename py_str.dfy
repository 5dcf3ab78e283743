/**
 * The two Python string operations the poller relies on, over `seq<char>`:
 * `s.strip(c)` for a one-character argument and `s.upper()` restricted to ASCII.
 */
module PyStr {

  /** The first index at or after `i` that does not hold `c` (`|s|` if there is none). */
  function SkipForward(s: string, c: char, i: nat): (n: nat)
    requires i <= |s|
    ensures i <= n <= |s|
    ensures forall k :: i <= k < n ==> s[k] == c
    ensures n < |s| ==> s[n] != c
    decreases |s| - i
  {
    if i < |s| && s[i] == c then SkipForward(s, c, i + 1) else i
  }

  /** Moving down from `j` but not below `lo`, the end of the last run not made of `c`. */
  function SkipBackward(s: string, c: char, lo: nat, j: nat): (m: nat)
    requires lo <= j <= |s|
    ensures lo <= m <= j
    ensures forall k :: m <= k < j ==> s[k] == c
    ensures m > lo ==> s[m - 1] != c
  {
    if j > lo && s[j - 1] == c then SkipBackward(s, c, lo, j - 1) else j
  }

  /**
   * Python's `s.strip(c)` for a one-character argument: an index moves right over the
   * leading `c`s, a second one moves left over the trailing ones without crossing the
   * first, and the slice between them is the result.
   */
  function Strip(s: string, c: char): (r: string)
  {
    var i := SkipForward(s, c, 0);
    s[i..SkipBackward(s, c, i, |s|)]
  }

  /**
   * `s[i..j]` is what is left of `s` once the runs of `c` at both ends are cut:
   * everything outside is `c`, and a non-empty slice starts and ends with another character.
   */
  predicate IsStrippedSlice(s: string, c: char, i: int, j: int)
  {
    && 0 <= i <= j <= |s|
    && (forall k :: 0 <= k < i ==> s[k] == c)
    && (forall k :: j <= k < |s| ==> s[k] == c)
    && (i < j ==> s[i] != c && s[j - 1] != c)
  }

  /** `Strip` keeps a contiguous slice of its input: leading and trailing `c` go, interior characters stay. */
  lemma StripIsSlice(s: string, c: char) returns (i: int, j: int)
    ensures IsStrippedSlice(s, c, i, j) && Strip(s, c) == s[i..j]
  {
    i := SkipForward(s, c, 0);
    j := SkipBackward(s, c, i, |s|);
  }

  /** Any slice shaped like a stripped one is exactly what `Strip` returns. */
  lemma StrippedSliceIsStrip(s: string, c: char, i: int, j: int)
    requires IsStrippedSlice(s, c, i, j)
    ensures Strip(s, c) == s[i..j]
  {
    var i', j' := StripIsSlice(s, c);
    // only c lies outside either slice, and both start and end on a non-c character
    assert i < j ==> i' == i && j' == j;
    assert i == j ==> i' == j';
  }

  /** Stripping twice (at the submission and again in the poller) is the same as stripping once. */
  lemma StripIdempotent(s: string, c: char)
    ensures Strip(Strip(s, c), c) == Strip(s, c)
  {
    var r := Strip(s, c);
    StrippedSliceIsStrip(r, c, 0, |r|);
  }

  /** For example, the body `"abc-123"`, quotes included, strips to the job id `abc-123`. */
  lemma StripQuotedJobId()
    ensures Strip("\"abc-123\"", '"') == "abc-123"
  {
    StrippedSliceIsStrip("\"abc-123\"", '"', 1, 8);
  }

  /** ASCII upper-casing of one character. */
  function UpperChar(ch: char): char
  {
    if 'a' <= ch <= 'z' then (ch as int - 32) as char else ch
  }

  /** `s.upper()`, ASCII letters only. */
  function Upper(s: string): (r: string)
    ensures |r| == |s|
    ensures forall k :: 0 <= k < |s| ==> r[k] == UpperChar(s[k])
  {
    if s == [] then [] else [UpperChar(s[0])] + Upper(s[1..])
  }

  /** `t` contains no lower-case ASCII letter. */
  predicate NoLowerCase(t: string)
  {
    forall k :: 0 <= k < |t| ==> !('a' <= t[k] <= 'z')
  }

  /** `a` is `b` itself, or the lower-case form of the upper-case letter `b`. */
  predicate SameLetter(a: char, b: char)
  {
    a == b || ('A' <= b <= 'Z' && a as int == b as int + 32)
  }

  /** `s` spells `t` up to the case of its ASCII letters. */
  predicate EqualsIgnoringCase(s: string, t: string)
  {
    |s| == |t| && forall k :: 0 <= k < |s| ==> SameLetter(s[k], t[k])
  }

  /**
   * Comparing `s.upper()` with an upper-case constant is a case-insensitive comparison:
   * it holds exactly for the spellings of the constant that differ only in letter case.
   */
  lemma UpperEqualsIff(s: string, t: string)
    requires NoLowerCase(t)
    ensures Upper(s) == t <==> EqualsIgnoringCase(s, t)
  {
    if Upper(s) == t {
      forall k | 0 <= k < |s| ensures SameLetter(s[k], t[k]) {
        assert t[k] == UpperChar(s[k]);
      }
    }
    if EqualsIgnoringCase(s, t) {
      forall k | 0 <= k < |s| ensures Upper(s)[k] == t[k] {
        assert SameLetter(s[k], t[k]);
        assert !('a' <= t[k] <= 'z');
      }
    }
  }
}

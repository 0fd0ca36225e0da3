/**
 * String primitives the storefront pages rely on, with JavaScript meaning:
 * `String.prototype.trim`, `String.prototype.length` (UTF-16 code units),
 * the regular-expression class `\d`, and `split("@")[0]`.
 * Dafny's `char` is a Unicode scalar value, so a string here is a sequence of
 * code points and UTF-16 length is computed from it.
 */
module Text {

  /** The code points `trim` removes: ECMAScript WhiteSpace and LineTerminator. */
  predicate IsWhitespace(c: char) {
    || c == '\t' || c == '\n' || c == '\U{000B}' || c == '\U{000C}' || c == '\r'
    || c == ' ' || c == '\U{00A0}' || c == '\U{1680}'
    || ('\U{2000}' <= c <= '\U{200A}')
    || c == '\U{2028}' || c == '\U{2029}' || c == '\U{202F}' || c == '\U{205F}'
    || c == '\U{3000}' || c == '\U{FEFF}'
  }

  /** True when every character of `s` is whitespace (this includes the empty string). */
  predicate IsBlank(s: string) {
    forall k :: 0 <= k < |s| ==> IsWhitespace(s[k])
  }

  /** `s` neither starts nor ends with whitespace. */
  predicate IsTrimmed(s: string) {
    s == [] || (!IsWhitespace(s[0]) && !IsWhitespace(s[|s| - 1]))
  }

  /** Removes leading whitespace; the full shape of the result is stated by TrimStartShape. */
  function TrimStart(s: string): (r: string)
    ensures |r| <= |s|
    ensures r == [] || !IsWhitespace(r[0])
  {
    if |s| > 0 && IsWhitespace(s[0]) then TrimStart(s[1..]) else s
  }

  /** Removes trailing whitespace; the full shape of the result is stated by TrimEndShape. */
  function TrimEnd(s: string): (r: string)
    ensures |r| <= |s|
    ensures r == [] || (r[0] == s[0] && !IsWhitespace(r[|r| - 1]))
  {
    if |s| > 0 && IsWhitespace(s[|s| - 1]) then TrimEnd(s[..|s| - 1]) else s
  }

  /** `TrimStart(s)` is the suffix of `s` after a run of whitespace. */
  lemma {:induction false} TrimStartShape(s: string)
    ensures s == s[..|s| - |TrimStart(s)|] + TrimStart(s)
    ensures IsBlank(s[..|s| - |TrimStart(s)|])
    decreases |s|
  {
    if |s| > 0 && IsWhitespace(s[0]) {
      var tail := s[1..];
      TrimStartShape(tail);
      var r := TrimStart(tail);
      var i := |s| - |r|;
      var blank := tail[..i - 1];
      assert tail == blank + r;
      assert s[..i] == [s[0]] + blank;
      assert s == [s[0]] + (blank + r);
      assert [s[0]] + (blank + r) == ([s[0]] + blank) + r;
      assert forall k :: 1 <= k < i ==> s[..i][k] == blank[k - 1];
    } else {
      assert s[..0] == [];
    }
  }

  /** `TrimEnd(s)` is the prefix of `s` before a run of whitespace. */
  lemma {:induction false} TrimEndShape(s: string)
    ensures TrimEnd(s) <= s
    ensures IsBlank(s[|TrimEnd(s)|..])
    decreases |s|
  {
    if |s| > 0 && IsWhitespace(s[|s| - 1]) {
      var init := s[..|s| - 1];
      TrimEndShape(init);
      var r := TrimEnd(init);
      assert forall k :: 0 <= k < |r| ==> r[k] == init[k] == s[k];
      assert s[|r|..] == init[|r|..] + [s[|s| - 1]];
    } else {
      assert s[|s|..] == [];
    }
  }

  /** JavaScript `s.trim()`. */
  function Trim(s: string): (r: string)
    ensures |r| <= |s|
    ensures IsTrimmed(r)
  {
    var t := TrimStart(s);
    var r := TrimEnd(t);
    assert r != [] ==> r[0] == t[0];
    r
  }

  /** Trimming with leading whitespace of length `|a|` in front of a word that does not start with whitespace. */
  lemma {:induction false} TrimStartSkips(a: string, m: string)
    requires IsBlank(a)
    requires m == [] || !IsWhitespace(m[0])
    ensures TrimStart(a + m) == m
    decreases |a|
  {
    if a == [] {
      assert a + m == m;
    } else {
      assert (a + m)[1..] == a[1..] + m;
      TrimStartSkips(a[1..], m);
    }
  }

  lemma {:induction false} TrimEndSkips(m: string, b: string)
    requires IsBlank(b)
    requires m == [] || !IsWhitespace(m[|m| - 1])
    ensures TrimEnd(m + b) == m
    decreases |b|
  {
    if b == [] {
      assert m + b == m;
    } else {
      assert (m + b)[..|m + b| - 1] == m + b[..|b| - 1];
      TrimEndSkips(m, b[..|b| - 1]);
    }
  }

  /**
   * Reference meaning of `trim`: if `s` is a whitespace run, a trimmed core and
   * another whitespace run, then `trim` returns exactly the core.
   */
  lemma TrimIsCore(a: string, m: string, b: string)
    requires IsBlank(a) && IsBlank(b) && IsTrimmed(m)
    ensures Trim(a + m + b) == m
  {
    if m == [] {
      var ab := a + b;
      assert a + m + b == ab && ab + [] == ab;
      assert forall k :: 0 <= k < |ab| ==> ab[k] == (if k < |a| then a[k] else b[k - |a|]);
      TrimStartSkips(ab, []);
      assert TrimStart(ab) == [];
      assert TrimEnd([]) == [];
    } else {
      assert a + m + b == a + (m + b);
      TrimStartSkips(a, m + b);
      TrimEndSkips(m, b);
    }
  }

  /** `s` is a whitespace run, then `r` starting at index `i`, then another whitespace run. */
  predicate SplitsAt(s: string, i: nat, r: string) {
    && i + |r| <= |s|
    && s[i..i + |r|] == r
    && IsBlank(s[..i])
    && IsBlank(s[i + |r|..])
  }

  /**
   * `trim` leaves exactly the original string minus a whitespace prefix and a
   * whitespace suffix: the trimmed value starts right after the leading whitespace.
   */
  lemma {:induction false} TrimDecomposes(s: string)
    ensures SplitsAt(s, |s| - |TrimStart(s)|, Trim(s))
  {
    TrimParts(s);
    SplitAround(s, TrimStart(s), Trim(s));
  }

  /** `t` is what is left of `s` after a whitespace prefix, and `r` what is left of `t` before a whitespace suffix. */
  predicate Peeled(s: string, t: string, r: string) {
    && |t| <= |s| && s == s[..|s| - |t|] + t && IsBlank(s[..|s| - |t|])
    && r <= t && IsBlank(t[|r|..])
  }

  /** The two passes of `trim` peel a whitespace prefix and then a whitespace suffix. */
  lemma {:induction false} TrimParts(s: string)
    ensures Peeled(s, TrimStart(s), Trim(s))
  {
    TrimStartShape(s);
    TrimEndShape(TrimStart(s));
  }

  /** `s` is a whitespace prefix, then `r`, then a whitespace suffix, when `r` is a prefix of a suffix `t` of `s`. */
  lemma SplitAround(s: string, t: string, r: string)
    requires Peeled(s, t, r)
    ensures SplitsAt(s, |s| - |t|, r)
  {
    var i := |s| - |t|;
    assert s[i..] == t;
    assert s[i..i + |r|] == t[..|r|];
    assert s[i + |r|..] == t[|r|..];
  }

  /** A string trims to empty exactly when it is blank. */
  lemma TrimEmptyIffBlank(s: string)
    ensures Trim(s) == [] <==> IsBlank(s)
  {
    if IsBlank(s) {
      assert s == s + [] + [];
      TrimIsCore(s, [], []);
    }
    if Trim(s) == [] {
      TrimStartShape(s);
      TrimEndShape(TrimStart(s));
      assert TrimStart(s) == [];
    }
  }

  /** Trimming twice is trimming once. */
  lemma TrimIdempotent(s: string)
    ensures Trim(Trim(s)) == Trim(s)
  {
    TrimOfTrimmed(Trim(s));
  }

  /** A string that neither starts nor ends with whitespace is left alone by `trim`. */
  lemma TrimOfTrimmed(m: string)
    requires IsTrimmed(m)
    ensures Trim(m) == m
  {
    assert [] + m == m && m + [] == m;
    TrimStartSkips([], m);
    TrimEndSkips(m, []);
  }

  /** Number of UTF-16 code units of `s`: code points above U+FFFF take a surrogate pair. */
  function Utf16Length(s: string): (n: nat)
    ensures |s| <= n <= 2 * |s|
    ensures n == 0 <==> s == []
  {
    if s == [] then 0
    else (if s[0] as int > 0xFFFF then 2 else 1) + Utf16Length(s[1..])
  }

  /** UTF-16 length below 2 means at most one character, and that character is in the BMP. */
  lemma Utf16LengthBelowTwo(s: string)
    ensures Utf16Length(s) < 2 <==> s == [] || (|s| == 1 && s[0] as int <= 0xFFFF)
  {
    if |s| == 1 {
      assert s[1..] == [];
    }
  }

  /** The regular-expression class `\d`: ASCII digits only. */
  predicate IsAsciiDigit(c: char) {
    '0' <= c <= '9'
  }

  predicate AllDigits(s: string) {
    forall k :: 0 <= k < |s| ==> IsAsciiDigit(s[k])
  }

  /**
   * How far a greedy `\d{0,limit}` gets from the start of `s`: the number of
   * leading digits, capped at `limit`.
   */
  function LeadingDigits(s: string, limit: nat): (n: nat)
    ensures n <= limit && n <= |s|
    ensures AllDigits(s[..n])
    ensures n < limit && n < |s| ==> !IsAsciiDigit(s[n])
  {
    if limit == 0 || s == [] || !IsAsciiDigit(s[0]) then 0
    else
      var n := 1 + LeadingDigits(s[1..], limit - 1);
      assert forall k :: 1 <= k < n ==> s[..n][k] == s[1..][..n - 1][k - 1];
      n
  }

  /**
   * The anchored pattern `^\d{min,max}$`: the greedy digit run may back off,
   * but the whole string must be consumed by between `min` and `max` digits.
   */
  predicate MatchesDigitRange(s: string, min: nat, max: nat) {
    var n := LeadingDigits(s, max);
    min <= |s| <= n
  }

  /** The pattern `^\d{min,max}$` accepts exactly the all-digit strings of length min..max. */
  lemma DigitRangeMeaning(s: string, min: nat, max: nat)
    ensures MatchesDigitRange(s, min, max) <==> min <= |s| <= max && AllDigits(s)
  {
    var n := LeadingDigits(s, max);
    if MatchesDigitRange(s, min, max) {
      assert s[..n] == s;
    }
  }

  /** JavaScript `s.split(sep)[0]` for a one-character separator: the text before the first `sep`. */
  function BeforeFirst(s: string, sep: char): (r: string)
    ensures r <= s
    ensures sep !in r
    ensures |r| < |s| ==> s[|r|] == sep
  {
    if s == [] || s[0] == sep then []
    else [s[0]] + BeforeFirst(s[1..], sep)
  }

  /** Without a separator the whole string is kept; with one, `s` is the prefix, the separator and the rest. */
  lemma BeforeFirstSplits(s: string, sep: char)
    ensures sep !in s ==> BeforeFirst(s, sep) == s
    ensures sep in s ==> s == BeforeFirst(s, sep) + [sep] + s[|BeforeFirst(s, sep)| + 1..]
  {
    var r := BeforeFirst(s, sep);
    if |r| < |s| {
      assert s[|r|] in s;
      assert s == r + [sep] + s[|r| + 1..];
    } else {
      assert r == s;
    }
  }
}

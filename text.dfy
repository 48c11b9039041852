/**
 * String helpers with the meaning of the Python built-ins the core calls:
 * str.strip(), str.rstrip(ch) and the decimal rendering of an int in an f-string.
 */
module Text {
  import opened Wrappers

  /** Python's `value or default` for an Optional[str]: None and "" both give the default. */
  function OrElse(value: Option<string>, default: string): (r: string)
    ensures value.Some? && value.value != "" ==> r == value.value
    ensures value.None? || value.value == "" ==> r == default
  {
    if value.Some? && value.value != "" then value.value else default
  }

  predicate StartsWith(s: string, prefix: string) {
    |prefix| <= |s| && s[..|prefix|] == prefix
  }

  predicate EndsWith(s: string, suffix: string) {
    |suffix| <= |s| && s[|s| - |suffix|..] == suffix
  }

  /** s holds t at offset i. */
  predicate OccursAt(s: string, t: string, i: nat) {
    i + |t| <= |s| && s[i..i + |t|] == t
  }

  /** Every character of t satisfies p. */
  ghost predicate All(t: string, p: char -> bool) {
    forall k :: 0 <= k < |t| ==> p(t[k])
  }

  /** Drops the longest prefix of s whose characters satisfy p. */
  function TrimStartWhile(s: string, p: char -> bool): (r: string)
    ensures |r| <= |s| && r == s[|s| - |r|..]
    ensures r == [] || !p(r[0])
    ensures All(s[..|s| - |r|], p)
  {
    if s != [] && p(s[0]) then
      var r := TrimStartWhile(s[1..], p);
      assert s[1..][..|s| - 1 - |r|] == s[1..|s| - |r|];
      r
    else
      s
  }

  /** Drops the longest suffix of s whose characters satisfy p. */
  function TrimEndWhile(s: string, p: char -> bool): (r: string)
    ensures |r| <= |s| && r == s[..|r|]
    ensures r == [] || !p(r[|r| - 1])
    ensures All(s[|r|..], p)
  {
    if s != [] && p(s[|s| - 1]) then
      var r := TrimEndWhile(s[..|s| - 1], p);
      assert s[..|s| - 1][|r|..] == s[|r|..|s| - 1];
      r
    else
      s
  }

  /** The characters for which Python's str.isspace() is true. */
  predicate IsSpace(c: char) {
    || ('\t' <= c <= '\r')
    || ('\U{1C}' <= c <= '\U{1F}')
    || c == ' ' || c == '\U{85}' || c == '\U{A0}' || c == '\U{1680}'
    || ('\U{2000}' <= c <= '\U{200A}')
    || c == '\U{2028}' || c == '\U{2029}' || c == '\U{202F}' || c == '\U{205F}' || c == '\U{3000}'
  }

  /** TrimStartWhile removes exactly a leading run of p: nothing more, nothing less. */
  lemma {:induction false} TrimStartWhileExact(pre: string, t: string, p: char -> bool)
    requires All(pre, p)
    requires t == [] || !p(t[0])
    ensures TrimStartWhile(pre + t, p) == t
  {
    if pre != [] {
      assert (pre + t)[1..] == pre[1..] + t;
      TrimStartWhileExact(pre[1..], t, p);
    } else {
      assert pre + t == t;
    }
  }

  /** TrimEndWhile removes exactly a trailing run of p: nothing more, nothing less. */
  lemma {:induction false} TrimEndWhileExact(t: string, post: string, p: char -> bool)
    requires All(post, p)
    requires t == [] || !p(t[|t| - 1])
    ensures TrimEndWhile(t + post, p) == t
  {
    if post != [] {
      assert (t + post)[..|t + post| - 1] == t + post[..|post| - 1];
      TrimEndWhileExact(t, post[..|post| - 1], p);
    } else {
      assert t + post == t;
    }
  }

  /**
   * r is what is left of s once a run of p is cut from each end: a slice of s
   * that neither starts nor ends with a p-character, with only p-characters
   * cut on either side.
   */
  ghost predicate TrimmedBoth(s: string, r: string, p: char -> bool) {
    && (r == [] || (!p(r[0]) && !p(r[|r| - 1])))
    && exists i :: 0 <= i <= |s| - |r| && r == s[i..i + |r|] && All(s[..i], p) && All(s[i + |r|..], p)
  }

  /**
   * Python's s.strip(): s without its leading and trailing whitespace, that is
   * the slice of s left once a whitespace prefix and a whitespace suffix are cut.
   */
  function Strip(s: string): (r: string)
    ensures TrimmedBoth(s, r, IsSpace)
  {
    TrimBothIsSlice(s, IsSpace);
    TrimEndWhile(TrimStartWhile(s, IsSpace), IsSpace)
  }

  /** Trimming a run of p at each end leaves a slice of s cut only where p holds. */
  lemma TrimBothIsSlice(s: string, p: char -> bool)
    ensures TrimmedBoth(s, TrimEndWhile(TrimStartWhile(s, p), p), p)
  {
    var t := TrimStartWhile(s, p);
    PrefixOfSuffix(s, t, TrimEndWhile(t, p), p);
  }

  /**
   * A prefix r of a suffix t of s, where t does not start and r does not end
   * with a p-character and only p-characters were cut, is s trimmed at both ends.
   */
  lemma PrefixOfSuffix(s: string, t: string, r: string, p: char -> bool)
    requires |t| <= |s| && t == s[|s| - |t|..] && All(s[..|s| - |t|], p) && (t == [] || !p(t[0]))
    requires |r| <= |t| && r == t[..|r|] && All(t[|r|..], p) && (r == [] || !p(r[|r| - 1]))
    ensures TrimmedBoth(s, r, p)
  {
    var i := |s| - |t|;
    assert t[|r|..] == s[i + |r|..];
    assert t[..|r|] == s[i..i + |r|];
    assert r != [] ==> r[0] == t[0];
  }

  /** Stripping twice is stripping once. */
  lemma StripIdempotent(s: string)
    ensures Strip(Strip(s)) == Strip(s)
  {
    var r := Strip(s);
    TrimStartWhileExact([], r, IsSpace);
    TrimEndWhileExact(r, [], IsSpace);
    assert [] + r == r && r + [] == r;
  }

  /** Whitespace around a string that has none at its ends is exactly what strip removes. */
  lemma StripSurrounded(pre: string, t: string, post: string)
    requires All(pre, IsSpace) && All(post, IsSpace)
    requires t == [] || (!IsSpace(t[0]) && !IsSpace(t[|t| - 1]))
    ensures Strip(pre + t + post) == t
  {
    if t == [] {
      assert pre + t + post == pre + post;
      TrimStartWhileExact(pre + post, [], IsSpace);
      assert pre + post + [] == pre + post;
    } else {
      assert pre + t + post == pre + (t + post);
      TrimStartWhileExact(pre, t + post, IsSpace);
    }
    TrimEndWhileExact(t, post, IsSpace);
  }

  /** Python's s.rstrip(c): s without the run of c at its end. */
  function RStrip(s: string, c: char): (r: string)
    ensures |r| <= |s| && r == s[..|r|]
    ensures r == [] || r[|r| - 1] != c
    ensures forall k :: |r| <= k < |s| ==> s[k] == c
  {
    TrimEndWhile(s, x => x == c)
  }

  /** Appending c's to s does not change s.rstrip(c). */
  lemma {:induction false} RStripIgnoresTrailing(s: string, c: char, n: nat)
    ensures RStrip(s + seq(n, _ => c), c) == RStrip(s, c)
    decreases n
  {
    if n > 0 {
      var t := s + seq(n, _ => c);
      assert t[..|t| - 1] == s + seq(n - 1, _ => c);
      RStripIgnoresTrailing(s, c, n - 1);
    } else {
      assert s + seq(n, _ => c) == s;
    }
  }

  // Decimal rendering of a non-negative int, as f"{n}" prints it.

  predicate IsDigit(c: char) { '0' <= c <= '9' }

  function DigitChar(d: nat): (c: char)
    requires d < 10
    ensures IsDigit(c)
  {
    "0123456789"[d]
  }

  function DigitValue(c: char): (d: nat)
    requires IsDigit(c)
    ensures d < 10 && DigitChar(d) == c
  {
    (c as int - '0' as int) as nat
  }

  /** f"{n}" for n >= 0: the shortest decimal numeral of n. */
  function Decimal(n: nat): (r: string)
    ensures r != [] && All(r, IsDigit)
    ensures |r| > 1 ==> r[0] != '0'
  {
    if n < 10 then [DigitChar(n)] else Decimal(n / 10) + [DigitChar(n % 10)]
  }

  /** The value of a string of decimal digits. */
  function ParseDecimal(s: string): nat
    requires All(s, IsDigit)
  {
    if s == [] then 0 else 10 * ParseDecimal(s[..|s| - 1]) + DigitValue(s[|s| - 1])
  }

  /** Reading back the numeral gives the number. */
  lemma {:induction false} DecimalRoundTrip(n: nat)
    ensures ParseDecimal(Decimal(n)) == n
  {
    var r := Decimal(n);
    if n >= 10 {
      assert r[..|r| - 1] == Decimal(n / 10);
      DecimalRoundTrip(n / 10);
    }
  }

  /** The longest prefix of s made of digits. */
  function LeadingDigits(s: string): (r: string)
    ensures |r| <= |s| && r == s[..|r|] && All(r, IsDigit)
    ensures |r| == |s| || !IsDigit(s[|r|])
  {
    if s != [] && IsDigit(s[0]) then
      var t := LeadingDigits(s[1..]);
      assert s[1..][|t|..] == s[1 + |t|..];
      [s[0]] + t
    else
      []
  }

  /** A numeral followed by a non-digit is read back whole. */
  lemma {:induction false} LeadingDigitsOfNumeral(d: string, rest: string)
    requires All(d, IsDigit)
    requires rest == [] || !IsDigit(rest[0])
    ensures LeadingDigits(d + rest) == d
  {
    if d != [] {
      assert (d + rest)[1..] == d[1..] + rest;
      LeadingDigitsOfNumeral(d[1..], rest);
    } else {
      assert d + rest == rest;
    }
  }
}

/** The Python `str` operations the invoice code relies on: `strip`, `replace`,
    `upper` and `str(int)`, each with the properties its callers use. */
module Text {

  /** True for exactly the characters for which Python's `str.isspace()` holds. */
  predicate IsSpace(c: char) {
    || c == ' '
    || ('\t' <= c <= '\r')
    || ('\U{1c}' <= c <= '\U{1f}')
    || c == '\U{85}' || c == '\U{a0}' || c == '\U{1680}'
    || ('\U{2000}' <= c <= '\U{200a}')
    || c == '\U{2028}' || c == '\U{2029}' || c == '\U{202f}' || c == '\U{205f}' || c == '\U{3000}'
  }

  /** The first index at or after `i` that is not whitespace (or `|s|`):
      the forward scan of `str.strip`. */
  function SkipLeading(s: string, i: nat): (n: nat)
    requires i <= |s|
    ensures i <= n <= |s|
    ensures forall k :: i <= k < n ==> IsSpace(s[k])
    ensures n == |s| || !IsSpace(s[n])
    decreases |s| - i
  {
    if i < |s| && IsSpace(s[i]) then SkipLeading(s, i + 1) else i
  }

  /** The end of the text once the whitespace before `j`, down to `lo`, is
      dropped: the backward scan of `str.strip`. */
  function SkipTrailing(s: string, lo: nat, j: nat): (n: nat)
    requires lo <= j <= |s|
    ensures lo <= n <= j
    ensures forall k :: n <= k < j ==> IsSpace(s[k])
    ensures n == lo || !IsSpace(s[n - 1])
    decreases j
  {
    if j > lo && IsSpace(s[j - 1]) then SkipTrailing(s, lo, j - 1) else j
  }

  /** True when `t` neither starts nor ends with whitespace. */
  predicate Trimmed(t: string) {
    t == [] || (!IsSpace(t[0]) && !IsSpace(t[|t| - 1]))
  }

  /** True when every character of `t` is whitespace. */
  predicate AllSpace(t: string) {
    forall k :: 0 <= k < |t| ==> IsSpace(t[k])
  }

  /** `r` is `s` without its leading and trailing whitespace: `s` is a run
      of whitespace, then `r`, then a run of whitespace, and `r` neither
      starts nor ends with whitespace. */
  ghost predicate Stripped(s: string, r: string) {
    && (exists a, b :: s == a + r + b && AllSpace(a) && AllSpace(b))
    && Trimmed(r)
  }

  /** Python `s.strip()`: the slice between the two scans. Neither end of
      the result is whitespace, and it is empty exactly for all-whitespace
      text; `StripMeaning` shows it is `s` without its surrounding
      whitespace. */
  function Strip(s: string): (r: string)
    ensures |r| <= |s|
    ensures Trimmed(r)
    ensures r == [] <==> AllSpace(s)
  {
    var i := SkipLeading(s, 0);
    var j := SkipTrailing(s, i, |s|);
    assert j > i ==> s[i..j][0] == s[i] && s[i..j][j - i - 1] == s[j - 1];
    s[i..j]
  }

  /** `strip` removes exactly the leading and the trailing whitespace. */
  lemma StripMeaning(s: string)
    ensures Stripped(s, Strip(s))
  {
    var i := SkipLeading(s, 0);
    var j := SkipTrailing(s, i, |s|);
    SplitAround(s, i, j);
  }

  /** A text is its prefix, middle and suffix; whitespace around the middle
      is whitespace in the two outer pieces. */
  lemma SplitAround(s: string, i: nat, j: nat)
    requires i <= j <= |s|
    requires forall k :: 0 <= k < i ==> IsSpace(s[k])
    requires forall k :: j <= k < |s| ==> IsSpace(s[k])
    ensures s == s[..i] + s[i..j] + s[j..] && AllSpace(s[..i]) && AllSpace(s[j..])
  {
    assert forall k :: 0 <= k < |s| - j ==> s[j..][k] == s[j + k];
  }

  /** Stripping text that has no surrounding whitespace changes nothing. */
  lemma StripUnchanged(s: string)
    requires Trimmed(s)
    ensures Strip(s) == s
  {
    var i := SkipLeading(s, 0);
    assert i == 0;
    var j := SkipTrailing(s, i, |s|);
    assert j == |s|;
    assert s[0..|s|] == s;
  }

  predicate StartsWith(s: string, p: string) {
    |p| <= |s| && s[..|p|] == p
  }

  /** Python `p in s`. */
  predicate Contains(s: string, p: string)
    decreases |s|
  {
    StartsWith(s, p) || (s != [] && Contains(s[1..], p))
  }

  lemma {:induction false} ContainsInSuffix(s: string, p: string, k: nat)
    requires k <= |s| && Contains(s[k..], p)
    ensures Contains(s, p)
  {
    if k > 0 {
      assert s[1..][k - 1..] == s[k..];
      ContainsInSuffix(s[1..], p, k - 1);
    }
  }

  lemma {:induction false} ContainsInPrefix(s: string, p: string, k: nat)
    requires k <= |s| && Contains(s[..k], p)
    ensures Contains(s, p)
  {
    if StartsWith(s[..k], p) {
      assert s[..k][..|p|] == s[..|p|];
    } else {
      assert s[..k][1..] == s[1..][..k - 1];
      ContainsInPrefix(s[1..], p, k - 1);
    }
  }

  /** Whatever contains `p + q` contains `p`. */
  lemma {:induction false} ContainsExtension(s: string, p: string, q: string)
    requires Contains(s, p + q)
    ensures Contains(s, p)
    decreases |s|
  {
    if StartsWith(s, p + q) {
      assert s[..|p|] == s[..|p + q|][..|p|];
      assert (p + q)[..|p|] == p;
    } else {
      ContainsExtension(s[1..], p, q);
    }
  }

  /** `strip` removes characters but never creates an occurrence of a pattern. */
  lemma StripKeepsAbsent(s: string, p: string)
    requires !Contains(s, p)
    ensures !Contains(Strip(s), p)
  {
    var i := SkipLeading(s, 0);
    var j := SkipTrailing(s, i, |s|);
    if Contains(s[i..j], p) {
      assert s[i..j] == s[i..][..j - i];
      ContainsInPrefix(s[i..], p, j - i);
      ContainsInSuffix(s, p, i);
    }
  }

  lemma {:induction false} ShorterNotContains(s: string, p: string)
    requires |s| < |p|
    ensures !Contains(s, p)
  {
    if s != [] { ShorterNotContains(s[1..], p); }
  }

  /** Python `s.replace(pat, rep)` for a non-empty `pat`: every non-overlapping
      occurrence, scanning left to right, is replaced. */
  function ReplaceAll(s: string, pat: string, rep: string): string
    requires pat != []
    decreases |s|
  {
    if |s| < |pat| then s
    else if StartsWith(s, pat) then rep + ReplaceAll(s[|pat|..], pat, rep)
    else [s[0]] + ReplaceAll(s[1..], pat, rep)
  }

  /** Replacing a pattern that does not occur leaves the text unchanged. */
  lemma {:induction false} ReplaceAbsent(s: string, pat: string, rep: string)
    requires pat != [] && !Contains(s, pat)
    ensures ReplaceAll(s, pat, rep) == s
  {
    if |s| >= |pat| {
      ReplaceAbsent(s[1..], pat, rep);
    }
  }

  /** Replacing a one-character pattern with text that lacks that character
      removes the character altogether. */
  lemma {:induction false} ReplaceCharRemoves(s: string, c: char, rep: string)
    requires c !in rep
    ensures c !in ReplaceAll(s, [c], rep)
  {
    if |s| >= 1 {
      ReplaceCharRemoves(s[1..], c, rep);
      if !StartsWith(s, [c]) { assert s[..1] == [s[0]]; }
    }
  }

  /** Replacing one character with one character changes that character at
      each position and keeps every other one. */
  lemma {:induction false} ReplaceCharPointwise(s: string, c: char, d: char)
    ensures |ReplaceAll(s, [c], [d])| == |s|
    ensures forall k :: 0 <= k < |s| ==>
      ReplaceAll(s, [c], [d])[k] == if s[k] == c then d else s[k]
  {
    if |s| >= 1 {
      ReplaceCharPointwise(s[1..], c, d);
      assert StartsWith(s, [c]) <==> s[0] == c by { assert s[..1] == [s[0]]; }
    }
  }

  /** The code fence the AI reply may be wrapped in. */
  const Fence: string := "```"

  lemma FenceRemovalKeepsFirst(t: string)
    requires t != [] && t[0] != '`'
    ensures ReplaceAll(t, Fence, "") != [] && ReplaceAll(t, Fence, "")[0] == t[0]
  {
    if |t| >= |Fence| { assert !StartsWith(t, Fence) by { assert t[..3][0] == t[0]; } }
  }

  lemma FenceRemovalNoDoubleTick(v: string)
    requires v != [] && !(|v| >= 2 && v[0] == '`' && v[1] == '`')
    ensures var r := ReplaceAll(v, Fence, ""); !(|r| >= 2 && r[0] == '`' && r[1] == '`')
  {
    if |v| >= 3 {
      assert !StartsWith(v, Fence) by { assert v[..3][0] == v[0] && v[..3][1] == v[1]; }
      if v[0] == '`' { FenceRemovalKeepsFirst(v[1..]); }
    }
  }

  /** After every "```" is removed, no "```" is left: no new fence can form
      where the removed pieces joined. */
  lemma {:induction false} FenceRemovalComplete(s: string)
    ensures !Contains(ReplaceAll(s, Fence, ""), Fence)
    decreases |s|
  {
    if |s| < |Fence| {
      ShorterNotContains(s, Fence);
    } else if StartsWith(s, Fence) {
      FenceRemovalComplete(s[3..]);
      assert ReplaceAll(s, Fence, "") == ReplaceAll(s[3..], Fence, "");
    } else {
      var t := ReplaceAll(s[1..], Fence, "");
      FenceRemovalComplete(s[1..]);
      var r := [s[0]] + t;
      assert ReplaceAll(s, Fence, "") == r;
      assert r[1..] == t;
      if StartsWith(r, Fence) {
        assert r[..3] == [s[0], t[0], t[1]];
        assert s[..3] == [s[0], s[1], s[2]];
        FenceRemovalNoDoubleTick(s[1..]);
        assert false;
      }
    }
  }

  /** Python `c.upper()` for a single character whose upper case is a single
      character: ASCII and Latin-1, with `ÿ` and `µ` leaving Latin-1. */
  function UpperChar(c: char): char {
    if 'a' <= c <= 'z' || ('\U{e0}' <= c <= '\U{fe}' && c != '\U{f7}') then (c as int - 32) as char
    else if c == '\U{ff}' then '\U{178}'
    else if c == '\U{b5}' then '\U{39c}'
    else c
  }

  /** True for the characters `UpperChar` changes: the model's mapping, which
      leaves out letters Python also upper-cases (such as 'ß'). */
  predicate UpperMapped(c: char) {
    'a' <= c <= 'z' || ('\U{e0}' <= c <= '\U{ff}' && c != '\U{f7}') || c == '\U{b5}'
  }

  /** Python `s.upper()`, character by character: `a`-`z` become `A`-`Z`,
      the Latin-1 letters their capitals, and every other character stays. */
  function Upper(s: string): (r: string)
    ensures |r| == |s|
    ensures forall k :: 0 <= k < |s| && 'a' <= s[k] <= 'z' ==> r[k] == (s[k] as int - 32) as char
    ensures forall k :: 0 <= k < |s| && !UpperMapped(s[k]) ==> r[k] == s[k]
    ensures forall k :: 0 <= k < |s| ==> !('a' <= r[k] <= 'z')
  {
    seq(|s|, k requires 0 <= k < |s| => UpperChar(s[k]))
  }

  function DigitChar(d: nat): (c: char)
    requires d < 10
    ensures '0' <= c <= '9'
  {
    (d + 48) as char
  }

  predicate AllDigits(s: string) {
    forall k :: 0 <= k < |s| ==> '0' <= s[k] <= '9'
  }

  /** Python `str(n)` for a non-negative integer: decimal digits, most
      significant first, with no leading zero. */
  function NatToString(n: nat): (r: string)
    ensures |r| >= 1 && AllDigits(r)
    ensures n > 0 ==> r[0] != '0'
  {
    if n < 10 then [DigitChar(n)] else NatToString(n / 10) + [DigitChar(n % 10)]
  }

  /** The decimal value of a string of digits. */
  function ParseNat(s: string): nat
    requires AllDigits(s)
  {
    if s == [] then 0 else ParseNat(s[..|s| - 1]) * 10 + (s[|s| - 1] as int - '0' as int)
  }

  lemma {:induction false} ParseNatToString(n: nat)
    ensures ParseNat(NatToString(n)) == n
  {
    if n >= 10 {
      var s := NatToString(n);
      assert s[..|s| - 1] == NatToString(n / 10);
      ParseNatToString(n / 10);
    }
  }

  /** Python `str(n)` for any integer. */
  function IntToString(n: int): (r: string)
    ensures r != [] && (r[0] == '-' <==> n < 0)
  {
    if n < 0 then "-" + NatToString(-n) else NatToString(n)
  }

  /** Python `int(s)` for the strings `str` produces. */
  function ParseInt(s: string): int
    requires s != [] && (if s[0] == '-' then AllDigits(s[1..]) else AllDigits(s))
  {
    if s[0] == '-' then -(ParseNat(s[1..]) as int) else ParseNat(s)
  }

  /** `str` on integers loses nothing: parsing its text gives the number back. */
  lemma IntToStringRoundTrip(n: int)
    ensures var r := IntToString(n);
      (if r[0] == '-' then AllDigits(r[1..]) else AllDigits(r)) && ParseInt(r) == n
  {
    if n < 0 {
      assert IntToString(n)[1..] == NatToString(-n);
      ParseNatToString(-n);
    } else {
      ParseNatToString(n);
    }
  }
}

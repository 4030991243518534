/**
 * The handful of Python `str` operations the configuration code relies on:
 * `strip()`, `rstrip(chars)`, `startswith`, `split(sep)`, `sep.join` and
 * `str(n)` for a natural number.
 */
module PyStrings {

  /** The characters `str.isspace()` accepts, which `str.strip()` removes. */
  predicate IsSpace(c: char) {
    || c == ' '
    || ('\t' <= c <= '\r')
    || ('\U{1C}' <= c <= '\U{1F}')
    || c == '\U{85}' || c == '\U{A0}' || c == '\U{1680}'
    || ('\U{2000}' <= c <= '\U{200A}')
    || c == '\U{2028}' || c == '\U{2029}' || c == '\U{202F}' || c == '\U{205F}' || c == '\U{3000}'
  }

  /** `s.lstrip()`: drops exactly the leading run of whitespace. */
  function LStrip(s: string): (r: string)
    ensures |r| <= |s| && s == s[..|s| - |r|] + r
    ensures forall i :: 0 <= i < |s| - |r| ==> IsSpace(s[i])
    ensures r == [] || !IsSpace(r[0])
  {
    if s != [] && IsSpace(s[0]) then LStrip(s[1..]) else s
  }

  /** `s.rstrip()`: drops exactly the trailing run of whitespace. */
  function RStrip(s: string): (r: string)
    ensures |r| <= |s| && s == r + s[|r|..]
    ensures forall i :: |r| <= i < |s| ==> IsSpace(s[i])
    ensures r == [] || !IsSpace(r[|r| - 1])
    ensures r != [] ==> r[0] == s[0]
  {
    if s != [] && IsSpace(s[|s| - 1]) then RStrip(s[..|s| - 1]) else s
  }

  /** `s.strip()` */
  function Strip(s: string): string {
    RStrip(LStrip(s))
  }

  /** A stripped string neither starts nor ends with whitespace. */
  lemma StripTrims(s: string)
    ensures var r := Strip(s); r == [] || (!IsSpace(r[0]) && !IsSpace(r[|r| - 1]))
  {
    var l := LStrip(s);
    var r := RStrip(l);
    if r != [] {
      assert r[0] == l[0];
    }
  }

  /** `r` is a slice of `s` with nothing but whitespace cut off either side. */
  ghost predicate TrimmedFrom(s: string, r: string) {
    exists i, j :: (0 <= i <= j <= |s| && r == s[i..j]
      && forall k :: 0 <= k < i || j <= k < |s| ==> IsSpace(s[k]))
  }

  /** `s.strip()` is a slice of `s` with nothing but whitespace cut off either side. */
  lemma StripTrimmed(s: string)
    ensures TrimmedFrom(s, Strip(s))
  {
    var l := LStrip(s);
    var r := RStrip(l);
    assert |l| <= |s| && s == s[..|s| - |l|] + l;
    assert forall k :: 0 <= k < |s| - |l| ==> IsSpace(s[k]);
    assert |r| <= |l| && l == r + l[|r|..];
    assert forall k :: |r| <= k < |l| ==> IsSpace(l[k]);
    StripCuts(s, l, r);
  }

  /** The two cuts of `strip()`: whitespace before `l`, and whitespace after `r` inside `l`. */
  lemma StripCuts(s: string, l: string, r: string)
    requires |l| <= |s| && s == s[..|s| - |l|] + l && forall k :: 0 <= k < |s| - |l| ==> IsSpace(s[k])
    requires |r| <= |l| && l == r + l[|r|..] && forall k :: |r| <= k < |l| ==> IsSpace(l[k])
    ensures TrimmedFrom(s, r)
  {
    var i := |s| - |l|;
    assert l == s[i..];
    assert r == l[..|r|];
    forall k | i + |r| <= k < |s|
      ensures IsSpace(s[k])
    {
      assert s[k] == l[k - i];
    }
    assert r == s[i..i + |r|];
  }

  /** Stripping a stripped string changes nothing. */
  lemma StripIdempotent(s: string)
    ensures Strip(Strip(s)) == Strip(s)
  {
    var r := Strip(s);
    StripTrims(s);
    assert LStrip(r) == r;
    assert RStrip(r) == r;
  }

  /** `s.rstrip(chars)`: drops exactly the trailing run of characters from `chars`. */
  function RStripChars(s: string, chars: set<char>): (r: string)
    ensures |r| <= |s| && s == r + s[|r|..]
    ensures forall i :: |r| <= i < |s| ==> s[i] in chars
    ensures r == [] || r[|r| - 1] !in chars
  {
    if s != [] && s[|s| - 1] in chars then RStripChars(s[..|s| - 1], chars) else s
  }

  /** Appending characters that are all stripped does not change what `rstrip` leaves. */
  lemma {:induction false} RStripCharsAppend(s: string, t: string, chars: set<char>)
    requires forall i :: 0 <= i < |t| ==> t[i] in chars
    ensures RStripChars(s + t, chars) == RStripChars(s, chars)
  {
    if t != [] {
      var u := s + t;
      assert u[|u| - 1] == t[|t| - 1];
      assert u[..|u| - 1] == s + t[..|t| - 1];
      RStripCharsAppend(s, t[..|t| - 1], chars);
    } else {
      assert s + t == s;
    }
  }

  predicate StartsWith(s: string, p: string) {
    p <= s
  }

  predicate EndsWith(s: string, p: string) {
    |p| <= |s| && s[|s| - |p|..] == p
  }

  /** `sep.join(parts)` */
  function JoinWith(parts: seq<string>, sep: string): string {
    if parts == [] then ""
    else if |parts| == 1 then parts[0]
    else parts[0] + sep + JoinWith(parts[1..], sep)
  }

  /** `s.split(c)`: the pieces between occurrences of `c`; joining them with `c` gives `s` back. */
  function Split(s: string, c: char): (r: seq<string>)
    ensures |r| >= 1
    ensures forall i, j :: 0 <= i < |r| && 0 <= j < |r[i]| ==> r[i][j] != c
    ensures JoinWith(r, [c]) == s
  {
    if s == [] then [""]
    else if s[0] == c then [""] + Split(s[1..], c)
    else
      var rest := Split(s[1..], c);
      var r := [[s[0]] + rest[0]] + rest[1..];
      assert |rest| > 1 ==> rest == [rest[0]] + rest[1..];
      r
  }

  /** Joining pieces that do not contain `c` and splitting on `c` gives the pieces back. */
  lemma {:induction false} SplitJoin(parts: seq<string>, c: char)
    requires |parts| >= 1
    requires forall i, j :: 0 <= i < |parts| && 0 <= j < |parts[i]| ==> parts[i][j] != c
    ensures Split(JoinWith(parts, [c]), c) == parts
  {
    if |parts| == 1 {
      SplitNoSeparator(parts[0], c);
    } else {
      SplitJoin(parts[1..], c);
      SplitAt(parts[0], JoinWith(parts[1..], [c]), c);
    }
  }

  lemma {:induction false} SplitNoSeparator(s: string, c: char)
    requires forall j :: 0 <= j < |s| ==> s[j] != c
    ensures Split(s, c) == [s]
  {
    if s != [] {
      SplitNoSeparator(s[1..], c);
    }
  }

  lemma {:induction false} SplitAt(a: string, b: string, c: char)
    requires forall j :: 0 <= j < |a| ==> a[j] != c
    ensures Split(a + [c] + b, c) == [a] + Split(b, c)
  {
    var s := a + [c] + b;
    if a == [] {
      assert s[1..] == b;
    } else {
      assert s[1..] == a[1..] + [c] + b;
      SplitAt(a[1..], b, c);
      var rest := Split(s[1..], c);
      assert rest == [a[1..]] + Split(b, c);
      assert [s[0]] + rest[0] == a;
    }
  }

  function Digit(d: nat): char
    requires d < 10
  {
    ('0' as int + d) as char
  }

  predicate IsDigit(c: char) {
    '0' <= c <= '9'
  }

  /** `str(n)` for a natural number: decimal digits without leading zeros. */
  function DecimalString(n: nat): (r: string)
    ensures |r| >= 1
    ensures forall i :: 0 <= i < |r| ==> IsDigit(r[i])
    ensures r[0] == '0' ==> n == 0
  {
    if n < 10 then [Digit(n)] else DecimalString(n / 10) + [Digit(n % 10)]
  }

  function Pow10(k: nat): (p: nat)
    ensures p >= 1
  {
    if k == 0 then 1 else 10 * Pow10(k - 1)
  }

  /** A number of at least 10^k has more than k digits. */
  lemma {:induction false} DecimalStringLength(n: nat, k: nat)
    requires n >= Pow10(k)
    ensures |DecimalString(n)| > k
  {
    if k > 0 {
      DecimalStringLength(n / 10, k - 1);
    }
  }

  /** Distinct numbers have distinct decimal strings. */
  lemma {:induction false} DecimalStringInjective(m: nat, n: nat)
    requires DecimalString(m) == DecimalString(n)
    ensures m == n
  {
    var sm, sn := DecimalString(m), DecimalString(n);
    if m >= 10 && n >= 10 {
      assert sm[..|sm| - 1] == DecimalString(m / 10);
      assert sn[..|sn| - 1] == DecimalString(n / 10);
      DecimalStringInjective(m / 10, n / 10);
      assert Digit(m % 10) == sm[|sm| - 1] == Digit(n % 10);
    }
  }
}

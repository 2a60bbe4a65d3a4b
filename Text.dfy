/** Text handling shared by the catalogue loader and the filter: whitespace trimming in the
    manner of Python's `str.strip()`, the rewrite of full-width parentheses to half-width
    ones, and the decimal rendering of whole numbers used inside labels. */
module Text {
  import opened Wrappers

  /** The characters Python's `str.isspace()` accepts; `str.strip()` removes exactly these. */
  predicate IsSpace(c: char) {
    ('\t' <= c <= '\r') || ('\U{1C}' <= c <= '\U{1F}') || c == ' ' || c == '\U{85}' || c == '\U{A0}'
    || c == '\U{1680}' || ('\U{2000}' <= c <= '\U{200A}') || c == '\U{2028}' || c == '\U{2029}'
    || c == '\U{202F}' || c == '\U{205F}' || c == '\U{3000}'
  }

  /** Every character of `s` is whitespace. */
  predicate AllSpace(s: string) {
    forall k :: 0 <= k < |s| ==> IsSpace(s[k])
  }

  /** Drops leading whitespace: the result is a suffix of `s` that does not start with whitespace. */
  function TrimStart(s: string): (r: string)
    ensures |r| <= |s| && r == s[|s| - |r|..]
    ensures r == [] || !IsSpace(r[0])
  {
    if s != [] && IsSpace(s[0]) then
      var r := TrimStart(s[1..]);
      assert s[1..][|s| - 1 - |r|..] == s[|s| - |r|..];
      r
    else s
  }

  /** What TrimStart drops is whitespace. */
  lemma {:induction false} TrimStartDropsSpace(s: string)
    ensures forall k :: 0 <= k < |s| - |TrimStart(s)| ==> IsSpace(s[k])
  {
    if s != [] && IsSpace(s[0]) {
      var t := s[1..];
      TrimStartDropsSpace(t);
      forall k | 1 <= k < |s| - |TrimStart(s)| ensures IsSpace(s[k]) {
        assert s[k] == t[k - 1];
      }
    }
  }

  /** Drops trailing whitespace: the result is a prefix of `s` that does not end with whitespace. */
  function TrimEnd(s: string): (r: string)
    ensures |r| <= |s| && r == s[..|r|]
    ensures r == [] || !IsSpace(r[|r| - 1])
  {
    if s != [] && IsSpace(s[|s| - 1]) then
      var r := TrimEnd(s[..|s| - 1]);
      assert s[..|s| - 1][..|r|] == s[..|r|];
      r
    else s
  }

  /** What TrimEnd drops is whitespace. */
  lemma {:induction false} TrimEndDropsSpace(s: string)
    ensures forall k :: |TrimEnd(s)| <= k < |s| ==> IsSpace(s[k])
  {
    if s != [] && IsSpace(s[|s| - 1]) {
      var p := s[..|s| - 1];
      TrimEndDropsSpace(p);
      forall k | |TrimEnd(s)| <= k < |s| - 1 ensures IsSpace(s[k]) {
        assert s[k] == p[k];
      }
    }
  }

  /** Python's `str.strip()` with no argument. */
  function Strip(s: string): string {
    TrimEnd(TrimStart(s))
  }

  /** `s` has no whitespace at either end. */
  predicate IsTrimmed(s: string) {
    s == [] || (!IsSpace(s[0]) && !IsSpace(s[|s| - 1]))
  }

  /** Strip keeps one contiguous slice of its input and drops only whitespace around it. */
  lemma StripIsSlice(s: string)
    ensures exists i, j :: 0 <= i <= j <= |s| && Strip(s) == s[i..j] && AllSpace(s[..i]) && AllSpace(s[j..])
  {
    var t := TrimStart(s);
    var r := TrimEnd(t);
    var i := |s| - |t|;
    var j := i + |r|;
    assert r == s[i..j] by {
      assert t == s[i..] && r == t[..|r|];
    }
    assert AllSpace(s[..i]) by {
      TrimStartDropsSpace(s);
      forall k | 0 <= k < i ensures IsSpace(s[..i][k]) {
      }
    }
    assert AllSpace(s[j..]) by {
      TrimEndDropsSpace(t);
      forall k | 0 <= k < |s| - j ensures IsSpace(s[j..][k]) {
        assert s[j..][k] == t[|r| + k];
      }
    }
  }

  /** Stripped text has no whitespace at either end. */
  lemma StripIsTrimmed(s: string)
    ensures IsTrimmed(Strip(s))
  {
    var t := TrimStart(s);
    var r := TrimEnd(t);
    if r != [] {
      assert r[0] == t[0];
    }
  }

  /** Stripping text that is already trimmed changes nothing. */
  lemma StripTrimmed(s: string)
    requires IsTrimmed(s)
    ensures Strip(s) == s
  {
  }

  /** `str.replace(from, to)` for a one-character pattern: every occurrence of `from` becomes `to`
      and every other character is kept in place. */
  function ReplaceChar(s: string, from: char, to: char): (r: string)
    ensures |r| == |s|
    ensures forall i :: 0 <= i < |s| ==> r[i] == if s[i] == from then to else s[i]
  {
    if s == [] then [] else [if s[0] == from then to else s[0]] + ReplaceChar(s[1..], from, to)
  }

  const FullWidthOpen: char := '（'
  const FullWidthClose: char := '）'

  /** The half-width form of one character: full-width parentheses become ASCII ones. */
  function HalfWidth(c: char): char {
    if c == FullWidthOpen then '(' else if c == FullWidthClose then ')' else c
  }

  /** `.replace('（', '(').replace('）', ')')`, applied to catalogue cells at load time and
      to both sides of the scope comparison at filter time. */
  function HalfWidthParens(s: string): (r: string)
    ensures |r| == |s|
    ensures forall i :: 0 <= i < |s| ==> r[i] == HalfWidth(s[i])
    ensures FullWidthOpen !in r && FullWidthClose !in r
  {
    ReplaceChar(ReplaceChar(s, FullWidthOpen, '('), FullWidthClose, ')')
  }

  /** `s` and `t` spell the same text once parenthesis width is ignored. */
  predicate SameUpToParenWidth(s: string, t: string) {
    |s| == |t| && forall i :: 0 <= i < |s| ==> HalfWidth(s[i]) == HalfWidth(t[i])
  }

  /** Two strings normalise to the same text exactly when they differ only in the width of
      their parentheses: a full-width and a half-width spelling compare equal, nothing else does. */
  lemma HalfWidthParensEqualIff(s: string, t: string)
    ensures HalfWidthParens(s) == HalfWidthParens(t) <==> SameUpToParenWidth(s, t)
  {
    var a, b := HalfWidthParens(s), HalfWidthParens(t);
    if SameUpToParenWidth(s, t) {
      assert forall i :: 0 <= i < |a| ==> a[i] == b[i];
    }
    if a == b {
      forall i | 0 <= i < |s| ensures HalfWidth(s[i]) == HalfWidth(t[i]) {
        assert a[i] == b[i];
      }
    }
  }

  /** Normalising twice is normalising once, so the filter-time rewrite of an already
      loaded (and so already rewritten) scope cell is harmless. */
  lemma HalfWidthParensIdempotent(s: string)
    ensures HalfWidthParens(HalfWidthParens(s)) == HalfWidthParens(s)
  {
    var a := HalfWidthParens(s);
    var b := HalfWidthParens(a);
    assert forall i :: 0 <= i < |b| ==> b[i] == a[i];
  }

  /** Text without full-width parentheses is left as it is. */
  lemma HalfWidthParensKeeps(s: string)
    requires FullWidthOpen !in s && FullWidthClose !in s
    ensures HalfWidthParens(s) == s
  {
    var a := HalfWidthParens(s);
    forall i | 0 <= i < |s| ensures a[i] == s[i] {
      assert s[i] in s;
    }
  }

  /** The parenthesis rewrite turns no character into whitespace and no whitespace into anything else. */
  lemma HalfWidthKeepsSpace(c: char)
    ensures IsSpace(HalfWidth(c)) <==> IsSpace(c)
  {
  }

  /** The parenthesis rewrite keeps trimmed text trimmed. */
  lemma HalfWidthParensKeepsTrimmed(t: string)
    requires IsTrimmed(t)
    ensures IsTrimmed(HalfWidthParens(t))
  {
    var r := HalfWidthParens(t);
    if r != [] {
      HalfWidthKeepsSpace(t[0]);
      HalfWidthKeepsSpace(t[|t| - 1]);
      assert r[0] == HalfWidth(t[0]) && r[|r| - 1] == HalfWidth(t[|t| - 1]);
    }
  }

  /** What the loader does to every text cell: strip, then rewrite the parentheses. */
  function CleanCell(s: string): string {
    HalfWidthParens(Strip(s))
  }

  /** A cleaned cell: trimmed and free of full-width parentheses. */
  predicate IsClean(s: string) {
    IsTrimmed(s) && FullWidthOpen !in s && FullWidthClose !in s
  }

  /** Every cleaned cell is clean, and cleaning a clean cell changes nothing. */
  lemma CleanCellIsClean(s: string)
    ensures IsClean(CleanCell(s))
    ensures IsClean(s) ==> CleanCell(s) == s
  {
    StripIsTrimmed(s);
    HalfWidthParensKeepsTrimmed(Strip(s));
    if IsClean(s) {
      StripTrimmed(s);
      HalfWidthParensKeeps(s);
    }
  }

  // ---- decimal rendering of whole numbers, as Python's `str(int)` and f-strings print them ----

  predicate IsDigit(c: char) {
    '0' <= c <= '9'
  }

  function DigitChar(d: nat): (c: char)
    requires d < 10
    ensures IsDigit(c) && DigitValue(c) == d
  {
    ('0' as int + d) as char
  }

  function DigitValue(c: char): (d: nat)
    requires IsDigit(c)
    ensures d < 10
  {
    c as int - '0' as int
  }

  /** The decimal spelling of `n`: non-empty, digits only, no leading zero. */
  function NatToString(n: nat): (r: string)
    ensures r != [] && forall i :: 0 <= i < |r| ==> IsDigit(r[i])
    ensures r[0] == '0' ==> n == 0
  {
    if n < 10 then [DigitChar(n)] else NatToString(n / 10) + [DigitChar(n % 10)]
  }

  /** The value of a string of decimal digits. */
  function DigitsValue(s: string): nat
    requires forall i :: 0 <= i < |s| ==> IsDigit(s[i])
  {
    if s == [] then 0 else DigitsValue(s[..|s| - 1]) * 10 + DigitValue(s[|s| - 1])
  }

  /** Reads a non-empty string of decimal digits back as a number; anything else is refused. */
  function ParseNat(s: string): Option<nat> {
    if s != [] && forall i :: 0 <= i < |s| ==> IsDigit(s[i]) then Some(DigitsValue(s)) else None
  }

  /** Reading back the decimal spelling of a number gives that number. */
  lemma {:induction false} ParseNatToString(n: nat)
    ensures ParseNat(NatToString(n)) == Some(n)
  {
    var r := NatToString(n);
    if n >= 10 {
      ParseNatToString(n / 10);
      assert r[..|r| - 1] == NatToString(n / 10);
      assert DigitsValue(r) == DigitsValue(NatToString(n / 10)) * 10 + n % 10;
    }
  }
}

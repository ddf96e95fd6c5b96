/**
 * The handful of Python `str` operations, and the `int()`/`float()` literal
 * grammar, that the ingestion code relies on: `strip`, `isdigit`, `split`,
 * `lower`, `replace`, `isupper`, `startswith`, `in`, `count`, `str(int)` and
 * the decimal text of `repr(float)`.
 *
 * Floats are modelled as exact decimals (`Dec`): every float the pipeline
 * builds comes from a decimal literal, and the properties proved here are
 * about which string gives which number, not about binary rounding.
 */
module PyText {
  import opened Wrappers

  // ---------------------------------------------------------------------
  // Characters

  /** `str.isspace` for one character: the Unicode whitespace set CPython strips. */
  predicate IsSpace(c: char) {
    var n := c as int;
    n == 0x20 || 0x09 <= n <= 0x0D || 0x1C <= n <= 0x1F || n == 0x85 || n == 0xA0 ||
    n == 0x1680 || 0x2000 <= n <= 0x200A || n == 0x2028 || n == 0x2029 ||
    n == 0x202F || n == 0x205F || n == 0x3000
  }

  predicate IsDigit(c: char) { '0' <= c <= '9' }

  predicate IsAsciiUpper(c: char) { 'A' <= c <= 'Z' }

  predicate IsAsciiLower(c: char) { 'a' <= c <= 'z' }

  predicate IsHexDigit(c: char) { IsDigit(c) || 'a' <= c <= 'f' || 'A' <= c <= 'F' }

  function LowerChar(c: char): char {
    if IsAsciiUpper(c) then (c as int - 'A' as int + 'a' as int) as char else c
  }

  function DigitValue(c: char): nat
    requires IsDigit(c)
  {
    c as int - '0' as int
  }

  function DigitChar(d: nat): (c: char)
    requires d < 10
    ensures IsDigit(c) && DigitValue(c) == d
  {
    ('0' as int + d) as char
  }

  // ---------------------------------------------------------------------
  // strip()

  /** `s.lstrip()`: drops the whitespace prefix and nothing else. */
  function LStrip(s: string): (r: string)
    ensures |r| <= |s| && r == s[|s| - |r|..]
    ensures forall i :: 0 <= i < |s| - |r| ==> IsSpace(s[i])
    ensures r == [] || !IsSpace(r[0])
  {
    if s != [] && IsSpace(s[0]) then LStrip(s[1..]) else s
  }

  /** `s.rstrip()`: drops the whitespace suffix and nothing else. */
  function RStrip(s: string): (r: string)
    ensures |r| <= |s| && r == s[..|r|]
    ensures forall i :: |r| <= i < |s| ==> IsSpace(s[i])
    ensures r == [] || !IsSpace(r[|r| - 1])
  {
    if s != [] && IsSpace(s[|s| - 1]) then RStrip(s[..|s| - 1]) else s
  }

  /** `s.strip()` */
  function Strip(s: string): string {
    RStrip(LStrip(s))
  }

  predicate AllSpace(s: string) {
    forall i :: 0 <= i < |s| ==> IsSpace(s[i])
  }

  lemma LStripAllSpace(s: string)
    requires AllSpace(s)
    ensures LStrip(s) == []
  {
    if s != [] {
      LStripAllSpace(s[1..]);
    }
  }

  lemma RStripKeepsFirst(s: string)
    requires s != [] && !IsSpace(s[0])
    ensures RStrip(s) != []
  {
    if |s| > 1 && IsSpace(s[|s| - 1]) {
      RStripKeepsFirst(s[..|s| - 1]);
    }
  }

  /** `not s.strip()` holds exactly for the strings made only of whitespace. */
  lemma StripEmptyIff(s: string)
    ensures Strip(s) == [] <==> AllSpace(s)
  {
    var l := LStrip(s);
    if AllSpace(s) {
      LStripAllSpace(s);
    } else {
      var i :| 0 <= i < |s| && !IsSpace(s[i]);
      assert |s| - |l| <= i;
      RStripKeepsFirst(l);
    }
  }

  /** The stripped text starts and ends with a non-space character. */
  lemma StripShape(s: string)
    ensures var r := Strip(s); r == [] || (!IsSpace(r[0]) && !IsSpace(r[|r| - 1]))
  {
    var l := LStrip(s);
    var r := RStrip(l);
    if r != [] {
      assert r[0] == l[0];
    }
  }

  lemma LStripNoop(s: string)
    requires s == [] || !IsSpace(s[0])
    ensures LStrip(s) == s
  {
  }

  lemma RStripNoop(s: string)
    requires s == [] || !IsSpace(s[|s| - 1])
    ensures RStrip(s) == s
  {
  }

  /** Stripping twice changes nothing more: `s.strip().strip() == s.strip()`. */
  lemma StripIdempotent(s: string)
    ensures Strip(Strip(s)) == Strip(s)
  {
    var r := Strip(s);
    StripShape(s);
    LStripNoop(r);
    RStripNoop(r);
  }

  /** A string without surrounding whitespace is its own stripped form. */
  lemma StripNoop(s: string)
    requires s == [] || (!IsSpace(s[0]) && !IsSpace(s[|s| - 1]))
    ensures Strip(s) == s
  {
    LStripNoop(s);
    RStripNoop(s);
  }

  // ---------------------------------------------------------------------
  // Digits and integer text

  predicate AllDigits(s: string) {
    forall i :: 0 <= i < |s| ==> IsDigit(s[i])
  }

  /** `s.isdigit()` restricted to ASCII: non-empty and every character a digit. */
  predicate IsDigitString(s: string) {
    |s| > 0 && AllDigits(s)
  }

  /** The value of a digit string read in base 10 (0 for the empty string). */
  function DigitsValue(s: string): nat
    requires AllDigits(s)
  {
    if s == [] then 0 else DigitsValue(s[..|s| - 1]) * 10 + DigitValue(s[|s| - 1])
  }

  /** `str(n)` for a natural number: decimal digits, no leading zero. */
  function NatText(n: nat): (r: string)
    ensures IsDigitString(r)
  {
    if n < 10 then [DigitChar(n)] else NatText(n / 10) + [DigitChar(n % 10)]
  }

  /** Reading back the text of a number gives the number: `int(str(n)) == n`. */
  lemma {:induction false} NatTextValue(n: nat)
    ensures DigitsValue(NatText(n)) == n
  {
    if n >= 10 {
      NatTextValue(n / 10);
      var t := NatText(n);
      assert t[..|t| - 1] == NatText(n / 10);
    }
  }

  /** `str(n)` never starts with a zero unless it is "0". */
  lemma NatTextNoLeadingZero(n: nat)
    ensures NatText(n)[0] != '0' || n == 0
  {
    if n >= 10 {
      NatTextNoLeadingZero(n / 10);
      assert NatText(n)[0] == NatText(n / 10)[0];
    }
  }

  lemma NatTextInjective(a: nat, b: nat)
    requires NatText(a) == NatText(b)
    ensures a == b
  {
    NatTextValue(a);
    NatTextValue(b);
  }

  /** `str(i)` for any integer. */
  function IntText(i: int): string {
    if i < 0 then "-" + NatText(-i) else NatText(i)
  }

  function Zeros(k: nat): (r: string)
    ensures |r| == k && AllDigits(r)
    ensures forall i :: 0 <= i < k ==> r[i] == '0'
  {
    if k == 0 then "" else "0" + Zeros(k - 1)
  }

  /** Leading zeros do not change the value of a digit string. */
  lemma {:induction false} LeadingZerosValue(k: nat, t: string)
    requires AllDigits(t)
    ensures AllDigits(Zeros(k) + t) && DigitsValue(Zeros(k) + t) == DigitsValue(t)
  {
    if t != [] {
      var u := Zeros(k) + t;
      assert u[..|u| - 1] == Zeros(k) + t[..|t| - 1];
      LeadingZerosValue(k, t[..|t| - 1]);
    } else {
      assert Zeros(k) + t == Zeros(k);
      ZerosValue(k);
    }
  }

  lemma {:induction false} ZerosValue(k: nat)
    ensures DigitsValue(Zeros(k)) == 0
  {
    if k > 0 {
      var z := Zeros(k);
      assert z[..|z| - 1] == Zeros(k - 1) by {
        if k > 1 {
          assert Zeros(k - 1) == "0" + Zeros(k - 2);
        }
      }
      ZerosValue(k - 1);
    }
  }

  /** Format `n` with at least `width` digits, as `f"{n:0{width}d}"` does. */
  function ZeroPad(n: nat, width: nat): (r: string)
    ensures |r| >= width && IsDigitString(r)
  {
    var t := NatText(n);
    if |t| >= width then t else Zeros(width - |t|) + t
  }

  /** The zero-padded text still reads back as the number. */
  lemma ZeroPadValue(n: nat, width: nat)
    ensures DigitsValue(ZeroPad(n, width)) == n
  {
    var t := NatText(n);
    PadKeepsValue(t, width);
    NatTextValue(n);
  }

  /** Padding any digit text with zeros on the left keeps its value. */
  lemma PadKeepsValue(t: string, width: nat)
    requires AllDigits(t)
    ensures var r := if |t| >= width then t else Zeros(width - |t|) + t;
      AllDigits(r) && DigitsValue(r) == DigitsValue(t)
  {
    if |t| < width {
      LeadingZerosValue(width - |t|, t);
    }
  }

  lemma ZeroPadInjective(a: nat, b: nat, width: nat)
    requires ZeroPad(a, width) == ZeroPad(b, width)
    ensures a == b
  {
    ZeroPadValue(a, width);
    ZeroPadValue(b, width);
  }

  // ---------------------------------------------------------------------
  // Searching and splitting

  /** `c in s` for a one-character needle is Dafny's own `in`; this is `sub in s`. */
  predicate StartsWith(s: string, prefix: string) {
    |prefix| <= |s| && s[..|prefix|] == prefix
  }

  /** `s.endswith(suffix)` */
  predicate EndsWith(s: string, suffix: string) {
    |suffix| <= |s| && s[|s| - |suffix|..] == suffix
  }

  predicate Contains(s: string, sub: string) {
    StartsWith(s, sub) || (s != [] && Contains(s[1..], sub))
  }

  /** `s.count(c)` for one character. */
  function Count(s: string, c: char): (n: nat)
    ensures n <= |s|
    ensures n == 0 <==> c !in s
  {
    if s == [] then 0 else (if s[0] == c then 1 else 0) + Count(s[1..], c)
  }

  /** Index of the first `c` in `s` (`s.index(c)`). */
  function IndexOf(s: string, c: char): (i: nat)
    requires c in s
    ensures i < |s| && s[i] == c && c !in s[..i]
  {
    if s[0] == c then 0 else 1 + IndexOf(s[1..], c)
  }

  /** `s.split(sep)` for a one-character separator. */
  function Split(s: string, sep: char): (parts: seq<string>)
    ensures |parts| >= 1
    ensures forall k :: 0 <= k < |parts| ==> sep !in parts[k]
    ensures |parts| == Count(s, sep) + 1
    decreases |s|
  {
    if sep in s then
      var i := IndexOf(s, sep);
      CountSplitAt(s, sep, i);
      [s[..i]] + Split(s[i + 1..], sep)
    else
      [s]
  }

  lemma CountSplitAt(s: string, c: char, i: nat)
    requires i < |s| && s[i] == c && c !in s[..i]
    ensures Count(s, c) == 1 + Count(s[i + 1..], c)
  {
    if i > 0 {
      assert s[1..][..i - 1] == s[1..i];
      assert s[1..][i - 1 + 1..] == s[i + 1..];
      CountSplitAt(s[1..], c, i - 1);
    }
  }

  /** `s.split(sep, 1)`: at most two parts, split at the first separator. */
  function SplitFirst(s: string, sep: char): (parts: seq<string>)
    ensures 1 <= |parts| <= 2
    ensures |parts| == 2 <==> sep in s
    ensures |parts| == 2 ==> s == parts[0] + [sep] + parts[1] && sep !in parts[0]
  {
    if sep in s then
      var i := IndexOf(s, sep);
      assert s == s[..i] + [sep] + s[i + 1..];
      [s[..i], s[i + 1..]]
    else
      [s]
  }

  /** `s.replace(c, "")` for one character. */
  function RemoveChar(s: string, c: char): (r: string)
    ensures c !in r && |r| <= |s|
    ensures forall x :: x in r ==> x in s
  {
    if s == [] then "" else (if s[0] == c then "" else [s[0]]) + RemoveChar(s[1..], c)
  }

  lemma RemoveCharNoop(s: string, c: char)
    requires c !in s
    ensures RemoveChar(s, c) == s
  {
    if s != [] {
      RemoveCharNoop(s[1..], c);
    }
  }

  /** `s.replace(pat, "")`: drops every non-overlapping occurrence, left to right. */
  function RemoveAll(s: string, pat: string): string
    requires |pat| > 0
    decreases |s|
  {
    if |s| < |pat| then s
    else if s[..|pat|] == pat then RemoveAll(s[|pat|..], pat)
    else [s[0]] + RemoveAll(s[1..], pat)
  }

  /** A pattern that holds a character absent from `s` cannot occur in it. */
  lemma RemoveAllNoop(s: string, pat: string, c: char)
    requires |pat| > 0 && c in pat && c !in s
    ensures RemoveAll(s, pat) == s
    decreases |s|
  {
    if |s| >= |pat| {
      var k :| 0 <= k < |pat| && pat[k] == c;
      assert s[k] in s;
      assert s[..|pat|][k] != pat[k];
      RemoveAllNoop(s[1..], pat, c);
    }
  }

  /** `s.strip(chars)`: drops characters of `chars` from both ends. */
  function StripChars(s: string, chars: set<char>): (r: string)
    ensures |r| <= |s|
    decreases |s|
  {
    if s != [] && s[0] in chars then StripChars(s[1..], chars)
    else if s != [] && s[|s| - 1] in chars then StripChars(s[..|s| - 1], chars)
    else s
  }

  lemma StripCharsNoop(s: string, chars: set<char>)
    requires s == [] || (s[0] !in chars && s[|s| - 1] !in chars)
    ensures StripChars(s, chars) == s
  {
  }

  /** `s.lower()` on ASCII letters. */
  function Lower(s: string): (r: string)
    ensures |r| == |s|
    ensures forall i :: 0 <= i < |s| ==> r[i] == LowerChar(s[i])
  {
    seq(|s|, i requires 0 <= i < |s| => LowerChar(s[i]))
  }

  /** `s.isupper()` on ASCII: some upper-case letter and no lower-case one. */
  predicate IsUpper(s: string) {
    (exists i :: 0 <= i < |s| && IsAsciiUpper(s[i])) &&
    (forall i :: 0 <= i < |s| ==> !IsAsciiLower(s[i]))
  }

  /** `sep.join(parts)` */
  function Join(sep: string, parts: seq<string>): string {
    if parts == [] then ""
    else if |parts| == 1 then parts[0]
    else parts[0] + sep + Join(sep, parts[1..])
  }

  // ---------------------------------------------------------------------
  // int() and float()

  /** `int(s)` for base 10: optional sign, ASCII digits, surrounding whitespace allowed. */
  function ParseInt(s: string): (r: Option<int>)
    ensures r.Some? ==> Strip(s) != []
  {
    var t := Strip(s);
    if t != [] && (t[0] == '+' || t[0] == '-') then
      if IsDigitString(t[1..]) then
        var v: int := DigitsValue(t[1..]);
        Some(if t[0] == '-' then -v else v)
      else None
    else if IsDigitString(t) then Some(DigitsValue(t))
    else None
  }

  /** A digit string, trimmed or not, reads as its value. */
  lemma ParseIntOfDigits(t: string)
    requires IsDigitString(t)
    ensures ParseInt(t) == Some(DigitsValue(t))
  {
    DigitNotSpace(t[0]);
    DigitNotSpace(t[|t| - 1]);
    StripNoop(t);
    assert t[0] != '+' && t[0] != '-';
  }

  /** An exact decimal `mant / 10^exp`: the value of a Python float written in positional notation. */
  datatype Dec = Dec(mant: int, exp: nat)

  function Pow10(k: nat): (p: nat)
    ensures p >= 1
  {
    if k == 0 then 1 else 10 * Pow10(k - 1)
  }

  function ToReal(d: Dec): real {
    d.mant as real / Pow10(d.exp) as real
  }

  function FromInt(i: int): (d: Dec)
    ensures ToReal(d) == i as real
  {
    Dec(i, 0)
  }

  /** `a < b`, compared on a common scale. */
  predicate Less(a: Dec, b: Dec) { a.mant * Pow10(b.exp) < b.mant * Pow10(a.exp) }

  predicate LessEq(a: Dec, b: Dec) { !Less(b, a) }

  /** `x < 0.0` */
  lemma LessZero(d: Dec)
    ensures Less(d, Dec(0, 0)) <==> d.mant < 0
    ensures Less(Dec(0, 0), d) <==> d.mant > 0
  {
  }

  predicate Positive(d: Dec) { d.mant > 0 }

  lemma PositiveIff(d: Dec)
    ensures Positive(d) <==> ToReal(d) > 0.0
  {
  }

  /**
   * The unsigned body of a float literal: `digits`, `digits.`, `digits.digits`
   * or `.digits`; returns the integer and fraction digit strings.
   */
  function FloatBody(b: string): (r: Option<(string, string)>)
    ensures r.Some? ==> AllDigits(r.value.0) && AllDigits(r.value.1)
    ensures r.Some? ==> |r.value.0| + |r.value.1| > 0
  {
    if '.' in b then
      var i := IndexOf(b, '.');
      if AllDigits(b[..i]) && AllDigits(b[i + 1..]) && |b| > 1 then
        Some((b[..i], b[i + 1..]))
      else None
    else if IsDigitString(b) then Some((b, ""))
    else None
  }

  /**
   * `float(s)` for strings in positional notation: surrounding whitespace, an
   * optional sign and a `FloatBody`. Exponents, `inf`/`nan` and underscores are
   * not part of this model.
   */
  function ParseFloat(s: string): (r: Option<Dec>)
    ensures r.Some? ==> Strip(s) != []
  {
    var t := Strip(s);
    var neg := t != [] && t[0] == '-';
    var body := if t != [] && (t[0] == '+' || t[0] == '-') then t[1..] else t;
    match FloatBody(body)
    case None => None
    case Some((ip, fp)) =>
      AllDigitsConcat(ip, fp);
      var m: int := DigitsValue(ip + fp);
      Some(Dec(if neg then -m else m, |fp|))
  }

  lemma AllDigitsConcat(a: string, b: string)
    requires AllDigits(a) && AllDigits(b)
    ensures AllDigits(a + b)
  {
  }

  /** Appending digits scales the value: the number behind `a + b` is `a * 10^|b| + b`. */
  lemma {:induction false} DigitsValueConcat(a: string, b: string)
    requires AllDigits(a) && AllDigits(b)
    ensures AllDigits(a + b)
    ensures DigitsValue(a + b) == DigitsValue(a) * Pow10(|b|) + DigitsValue(b)
  {
    if b != [] {
      var ab := a + b;
      var b' := b[..|b| - 1];
      assert ab[..|ab| - 1] == a + b';
      DigitsValueConcat(a, b');
      var d := DigitValue(b[|b| - 1]);
      assert ab[|ab| - 1] == b[|b| - 1];
      assert DigitsValue(ab) == DigitsValue(a + b') * 10 + d;
      assert DigitsValue(b) == DigitsValue(b') * 10 + d;
      ConcatStep(DigitsValue(ab), DigitsValue(a + b'), DigitsValue(a), Pow10(|b'|), DigitsValue(b'), d, DigitsValue(b), Pow10(|b|));
    } else {
      assert a + b == a;
    }
  }

  lemma ScaleByTen(x: int, p: int, y: int, d: int)
    ensures (x * p + y) * 10 + d == x * (10 * p) + (y * 10 + d)
  {
  }

  /** The arithmetic of one step of `DigitsValueConcat`, on plain integers. */
  lemma ConcatStep(vab: int, vab': int, va: int, p: int, vb': int, d: int, vb: int, pb: int)
    requires vab == vab' * 10 + d && vab' == va * p + vb' && vb == vb' * 10 + d && pb == 10 * p
    ensures vab == va * pb + vb
  {
    ScaleByTen(va, p, vb', d);
  }

  lemma DigitNotSpace(c: char)
    requires IsDigit(c)
    ensures !IsSpace(c)
  {
  }

  lemma NoCharOutsideDigits(s: string, c: char)
    requires AllDigits(s) && !IsDigit(c)
    ensures c !in s
  {
    forall i | 0 <= i < |s|
      ensures s[i] != c
    {
    }
  }

  /** The digits of an integer literal read by `float()` give that integer. */
  lemma ParseFloatDigits(s: string)
    requires IsDigitString(s)
    ensures ParseFloat(s) == Some(Dec(DigitsValue(s), 0))
  {
    DigitNotSpace(s[0]);
    DigitNotSpace(s[|s| - 1]);
    StripNoop(s);
    NoCharOutsideDigits(s, '.');
    var body := s;
    assert FloatBody(body) == Some((s, ""));
    assert s + "" == s;
  }

  /** `float("<ip>.<fp>")` reads the digits on both sides of the point. */
  lemma ParseFloatPoint(ip: string, fp: string)
    requires AllDigits(ip) && AllDigits(fp) && |ip| + |fp| > 0
    ensures var s := ip + "." + fp;
      FloatBody(s) == Some((ip, fp)) &&
      (ip != [] ==> ParseFloat(s) == Some(Dec(DigitsValue(ip + fp), |fp|)))
  {
    var s := ip + "." + fp;
    FloatBodyPoint(ip, fp);
    if ip != [] {
      assert s[0] == ip[0];
      DigitNotSpace(ip[0]);
      if fp != [] {
        assert s[|s| - 1] == fp[|fp| - 1];
        DigitNotSpace(fp[|fp| - 1]);
      }
      StripNoop(s);
      ParseFloatOfBody(s, ip, fp);
    }
  }

  /** An unsigned text with nothing to trim reads as its body. */
  lemma ParseFloatOfBody(s: string, ip: string, fp: string)
    requires Strip(s) == s && s != [] && s[0] != '+' && s[0] != '-'
    requires FloatBody(s) == Some((ip, fp))
    ensures ParseFloat(s) == Some(Dec(DigitsValue(ip + fp), |fp|))
  {
  }

  lemma FloatBodyPoint(ip: string, fp: string)
    requires AllDigits(ip) && AllDigits(fp) && |ip| + |fp| > 0
    ensures FloatBody(ip + "." + fp) == Some((ip, fp))
  {
    var s := ip + "." + fp;
    assert s[|ip|] == '.';
    NoCharOutsideDigits(ip, '.');
    assert s[..|ip|] == ip;
    IndexOfAt(s, '.', |ip|);
    assert s[|ip| + 1..] == fp;
  }

  lemma IndexOfAt(s: string, c: char, i: nat)
    requires i < |s| && s[i] == c && c !in s[..i]
    ensures IndexOf(s, c) == i
  {
    if i > 0 {
      assert s[1..][..i - 1] == s[1..i];
      IndexOfAt(s[1..], c, i - 1);
    }
  }

  /** Splitting a string that has no separator gives it back whole. */
  lemma SplitNone(s: string, sep: char)
    requires sep !in s
    ensures Split(s, sep) == [s]
  {
  }

  /** `(a + sep + b).split(sep)` with no separator in `a` or `b` gives `[a, b]`. */
  /** A first part without the separator is split off on its own. */
  lemma SplitCons(a: string, rest: string, sep: char)
    requires sep !in a
    ensures Split(a + [sep] + rest, sep) == [a] + Split(rest, sep)
  {
    var s := a + [sep] + rest;
    assert s[|a|] == sep;
    assert s[..|a|] == a;
    IndexOfAt(s, sep, |a|);
    assert s[|a| + 1..] == rest;
  }

  lemma SplitTwo(a: string, b: string, sep: char)
    requires sep !in a && sep !in b
    ensures Split(a + [sep] + b, sep) == [a, b]
  {
    var s := a + [sep] + b;
    assert s[|a|] == sep;
    assert s[..|a|] == a;
    IndexOfAt(s, sep, |a|);
    assert s[|a| + 1..] == b;
  }

  // ---------------------------------------------------------------------
  // repr(float)

  /** The value `Dec` after dropping trailing zeros of the fraction. */
  function Normalize(d: Dec): (r: Dec)
    ensures ToReal(r) == ToReal(d)
    ensures r.exp == 0 || r.mant % 10 != 0
    decreases d.exp
  {
    if d.exp > 0 && d.mant % 10 == 0 then
      var r := Normalize(Dec(d.mant / 10, d.exp - 1));
      NormalizeStep(d);
      r
    else d
  }

  lemma NormalizeStep(d: Dec)
    requires d.exp > 0 && d.mant % 10 == 0
    ensures ToReal(Dec(d.mant / 10, d.exp - 1)) == ToReal(d)
  {
    var q := d.mant / 10;
    assert d.mant == 10 * q;
    var p := Pow10(d.exp - 1);
    assert Pow10(d.exp) == 10 * p;
    assert (10 * q) as real / (10 * p) as real == q as real / p as real;
  }

  lemma DivModNonNeg(a: nat, p: nat)
    requires p > 0
    ensures a / p >= 0 && a % p >= 0
  {
  }

  /**
   * `repr(x)` of a float in positional form: the shortest digits, at least one
   * digit after the point (`2.0`, `0.5`, `1500.75`).
   */
  function DecText(d: Dec): string {
    var n := Normalize(d);
    var a: nat := if n.mant < 0 then -n.mant else n.mant;
    var sign := if n.mant < 0 then "-" else "";
    var p := Pow10(n.exp);
    DivModNonNeg(a, p);
    if n.exp == 0 then sign + NatText(a) + ".0"
    else sign + NatText(a / p) + "." + ZeroPad(a % p, n.exp)
  }
}

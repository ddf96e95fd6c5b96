/**
 * `uuid.UUID(text)` followed by `str()`, on the hex-string constructor:
 * `urn:` and `uuid:` are removed, then braces at both ends, then every
 * hyphen; what remains must be 32 hex digits, and `str()` prints them in
 * lower case grouped 8-4-4-4-12.
 */
module PyUuid {
  import opened Wrappers
  import opened PyText

  predicate IsLowerHex(c: char) { IsDigit(c) || 'a' <= c <= 'f' }

  predicate AllHex(s: string) {
    forall i :: 0 <= i < |s| ==> IsHexDigit(s[i])
  }

  /** Positions of the four hyphens in the printed form. */
  predicate IsHyphenAt(i: int) { i == 8 || i == 13 || i == 18 || i == 23 }

  /** The printed form: 36 characters, hyphens at 8, 13, 18 and 23, lower-case hex elsewhere. */
  predicate IsCanonical(s: string) {
    |s| == 36 &&
    forall i :: 0 <= i < 36 ==> if IsHyphenAt(i) then s[i] == '-' else IsLowerHex(s[i])
  }

  /** The hex digit that the printed position `i` shows. */
  function Source(i: nat): nat
    requires i < 36 && !IsHyphenAt(i)
  {
    if i < 8 then i else if i < 13 then i - 1 else if i < 18 then i - 2 else if i < 23 then i - 3 else i - 4
  }

  /** The printed position of hex digit `j`. */
  function Target(j: nat): (i: nat)
    requires j < 32
    ensures i < 36 && !IsHyphenAt(i) && Source(i) == j
  {
    if j < 8 then j else if j < 12 then j + 1 else if j < 16 then j + 2 else if j < 20 then j + 3 else j + 4
  }

  /** What the constructor keeps of its argument before counting digits. */
  function HexDigits(s: string): string {
    RemoveChar(StripChars(RemoveAll(RemoveAll(s, "urn:"), "uuid:"), {'{', '}'}), '-')
  }

  /** `str(UUID(hex=h))` for 32 hex digits. */
  function Canonical(h: string): (c: string)
    requires |h| == 32 && AllHex(h)
    ensures IsCanonical(c)
  {
    seq(36, i requires 0 <= i < 36 =>
      if IsHyphenAt(i) then '-' else LowerChar(h[Source(i)]))
  }

  /** `str(UUID(s))`, or `None` where the constructor raises `ValueError`. */
  function ParseUuid(s: string): (r: Option<string>)
    ensures r.Some? ==> IsCanonical(r.value)
    ensures r.Some? <==> |HexDigits(s)| == 32 && AllHex(HexDigits(s))
  {
    var h := HexDigits(s);
    if |h| == 32 && AllHex(h) then Some(Canonical(h)) else None
  }

  lemma {:induction false} RemoveCharConcat(a: string, b: string, c: char)
    ensures RemoveChar(a + b, c) == RemoveChar(a, c) + RemoveChar(b, c)
  {
    if a == [] {
      assert a + b == b;
    } else {
      assert (a + b)[1..] == a[1..] + b;
      RemoveCharConcat(a[1..], b, c);
    }
  }

  lemma NoHyphenPiece(c: string, lo: nat, hi: nat)
    requires IsCanonical(c) && lo <= hi <= 36
    requires forall i :: lo <= i < hi ==> !IsHyphenAt(i)
    ensures '-' !in c[lo..hi]
  {
    forall i | 0 <= i < hi - lo ensures c[lo..hi][i] != '-' {
      assert c[lo..hi][i] == c[lo + i];
    }
  }

  lemma DropHyphen(p: string, rest: string)
    requires '-' !in p
    ensures RemoveChar(p + "-" + rest, '-') == p + RemoveChar(rest, '-')
  {
    var hyphen: string := "-";
    var tail := RemoveChar(rest, '-');
    assert RemoveChar(hyphen, '-') == [] by {
      assert hyphen[1..] == [];
    }
    RemoveCharConcat(p + hyphen, rest, '-');
    RemoveCharConcat(p, hyphen, '-');
    RemoveCharNoop(p, '-');
    assert RemoveChar(p + hyphen, '-') == p + [] == p;
    assert RemoveChar(p + hyphen + rest, '-') == p + tail;
  }

  /** The prefixes, braces and hyphens the constructor drops: only the hyphens occur in a printed UUID. */
  lemma CanonicalHexDigits(c: string)
    requires IsCanonical(c)
    ensures HexDigits(c) == RemoveChar(c, '-')
  {
    assert ':' !in c by {
      forall i | 0 <= i < |c| ensures c[i] != ':' {
        assert IsHyphenAt(i) || IsLowerHex(c[i]);
      }
    }
    RemoveAllNoop(c, "urn:", ':');
    RemoveAllNoop(c, "uuid:", ':');
    assert !IsHyphenAt(0) && !IsHyphenAt(35);
    StripCharsNoop(c, {'{', '}'});
  }

  /** The hex digits of a printed UUID, read back in order. */
  lemma CanonicalDigits(c: string)
    requires IsCanonical(c)
    ensures HexDigits(c) == c[..8] + c[9..13] + c[14..18] + c[19..23] + c[24..]
  {
    CanonicalHexDigits(c);
    NoHyphenPiece(c, 0, 8);
    NoHyphenPiece(c, 9, 13);
    NoHyphenPiece(c, 14, 18);
    NoHyphenPiece(c, 19, 23);
    NoHyphenPiece(c, 24, 36);
    var g1, g2, g3, g4, g5 := c[..8], c[9..13], c[14..18], c[19..23], c[24..];
    assert c[24..] == c[24..36];
    var t4 := c[19..];
    assert t4 == g4 + "-" + g5;
    DropHyphen(g4, g5);
    RemoveCharNoop(g5, '-');
    var t3 := c[14..];
    assert t3 == g3 + "-" + t4;
    DropHyphen(g3, t4);
    var t2 := c[9..];
    assert t2 == g2 + "-" + t3;
    DropHyphen(g2, t3);
    assert c == g1 + "-" + t2;
    DropHyphen(g1, t2);
    Reassociate(g1, g2, g3, g4, g5);
  }

  lemma Reassociate(a: string, b: string, c: string, d: string, e: string)
    ensures a + (b + (c + (d + e))) == a + b + c + d + e
  {
  }

  /** An already canonical UUID string is returned unchanged. */
  lemma CanonicalIsFixed(c: string)
    requires IsCanonical(c)
    ensures ParseUuid(c) == Some(c)
  {
    CanonicalDigits(c);
    var h := HexDigits(c);
    assert |h| == 32;
    assert forall j :: 0 <= j < 32 ==> h[j] == c[Target(j)];
    assert AllHex(h) by {
      forall j | 0 <= j < 32 ensures IsHexDigit(h[j]) {
        assert h[j] == c[Target(j)];
      }
    }
    forall i | 0 <= i < 36 ensures Canonical(h)[i] == c[i] {
      if !IsHyphenAt(i) {
        var j := Source(i);
        assert Target(j) == i;
        assert h[j] == c[i];
      }
    }
    assert Canonical(h) == c;
  }

  /** Printing is idempotent: parsing a printed UUID prints it again. */
  lemma ParseUuidIdempotent(s: string)
    requires ParseUuid(s).Some?
    ensures ParseUuid(ParseUuid(s).value) == ParseUuid(s)
  {
    CanonicalIsFixed(ParseUuid(s).value);
  }

  /** Blank text is never a UUID: nothing is dropped from it, and spaces are not hex digits. */
  lemma BlankIsNotUuid(s: string)
    requires AllSpace(s)
    ensures ParseUuid(s).None?
  {
    assert ':' !in s && '-' !in s by {
      forall i | 0 <= i < |s| ensures s[i] != ':' && s[i] != '-' {
        assert IsSpace(s[i]);
      }
    }
    RemoveAllNoop(s, "urn:", ':');
    RemoveAllNoop(s, "uuid:", ':');
    if s != [] {
      assert IsSpace(s[0]) && IsSpace(s[|s| - 1]);
    }
    StripCharsNoop(s, {'{', '}'});
    RemoveCharNoop(s, '-');
    if |s| == 32 {
      assert IsSpace(s[0]) && !IsHexDigit(s[0]);
    }
  }
}

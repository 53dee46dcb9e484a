/** Which texts are JSON literals, and of which values: section 7 of RFC 8259 for every spelling of a string, and
    the decimal spellings of integers. */
module JsonLiterals {
  import opened Text
  import opened Json

  // ----- Spellings of one character -----

  /** A digit of either letter case */
  predicate IsHexDigit(c: char, d: nat) {
    || (d < 10 && c as int == '0' as int + d)
    || (10 <= d < 16 && (c as int == 'a' as int + (d - 10) || c as int == 'A' as int + (d - 10)))
  }

  /** The hexadecimal digits of a number, with zeros in front */
  predicate SpellsHex(s: string, n: nat) {
    if s == [] then n == 0
    else IsHexDigit(s[|s| - 1], n % 16) && SpellsHex(s[..|s| - 1], n / 16)
  }

  /** The four digits of a 16-bit unit */
  predicate SpellsUnit(s: string, unit: nat) {
    |s| == 4 && SpellsHex(s, unit)
  }

  const ESCAPES: map<char, char> := map[
    '\"' := '\"', '\\' := '\\', '/' := '/', 'b' := '\U{8}', 'f' := '\U{c}', 'n' := '\n', 'r' := '\r', 't' := '\t']

  /** A character stands for itself unless it is a quote, a backslash or a control character. */
  predicate SpellsPlainly(s: string, c: char) {
    s == [c] && ' ' <= c && c != '\"' && c != '\\'
  }

  predicate SpellsShortly(s: string, c: char) {
    |s| == 2 && s[0] == '\\' && s[1] in ESCAPES && ESCAPES[s[1]] == c
  }

  predicate SpellsByUnit(s: string, c: char) {
    |s| == 6 && s[0] == '\\' && s[1] == 'u' && SpellsUnit(s[2..], c as int)
  }

  /** The two halves of a surrogate pair */
  predicate SpellsByPair(s: string, c: char) {
    && |s| == 12 && s[0] == '\\' && s[1] == 'u' && s[6] == '\\' && s[7] == 'u'
    && c as int >= 0x1_0000
    && SpellsUnit(s[2..6], 0xD800 + (c as int - 0x1_0000) / 0x400)
    && SpellsUnit(s[8..], 0xDC00 + (c as int - 0x1_0000) % 0x400)
  }

  predicate Spells(s: string, c: char) {
    SpellsPlainly(s, c) || SpellsShortly(s, c) || SpellsByUnit(s, c) || SpellsByPair(s, c)
  }

  // ----- Reading digits -----

  lemma HexDigitIff(c: char, d: nat)
    ensures HexValue(c) == Some(d) <==> IsHexDigit(c, d)
  {
  }

  /** What `m` and one more digit make */
  function OneMoreDigit(m: Option<nat>, c: char): Option<nat> {
    match (m, HexValue(c))
    case (Some(n), Some(d)) => Some(16 * n + d)
    case _ => None
  }

  lemma HexUnfolds(s: string, n: nat, q: nat, r: nat)
    requires s != [] && q == n / 16 && r == n % 16
    ensures SpellsHex(s, n) <==> IsHexDigit(s[|s| - 1], r) && SpellsHex(s[..|s| - 1], q)
  {
  }

  lemma DigitIsBelow(c: char)
    ensures HexValue(c).Some? ==> HexValue(c).value < 16
  {
  }

  lemma Sixteens(q: nat, r: nat, m: nat, d: nat)
    requires r < 16 && d < 16
    ensures 16 * m + d == 16 * q + r <==> m == q && d == r
  {
  }

  lemma HexStep(s: string, n: nat, q: nat, m: Option<nat>)
    requires s != [] && q == n / 16 && (SpellsHex(s[..|s| - 1], q) <==> m == Some(q))
    ensures SpellsHex(s, n) <==> OneMoreDigit(m, s[|s| - 1]) == Some(n)
  {
    var c, r := s[|s| - 1], n % 16;
    HexUnfolds(s, n, q, r);
    HexDigitIff(c, r);
    DigitIsBelow(c);
    assert n == 16 * q + r;
    if m.Some? && HexValue(c).Some? {
      Sixteens(q, r, m.value, HexValue(c).value);
    }
  }

  lemma QuadIff(s: string, unit: nat)
    requires |s| >= 4
    ensures HexQuad(s) == Some(unit) <==> SpellsUnit(s[..4], unit)
  {
    var q := s[..4];
    assert q[..3][..2] == q[..2] && q[..2][..1] == q[..1] && q[..1][..0] == [];
    var a := OneMoreDigit(Some(0), s[0]);
    var b := OneMoreDigit(a, s[1]);
    var c := OneMoreDigit(b, s[2]);
    var n3 := unit / 16;
    var n2 := n3 / 16;
    var n1 := n2 / 16;
    HexStep(q[..1], n1, n1 / 16, Some(0));
    HexStep(q[..2], n2, n1, a);
    HexStep(q[..3], n3, n2, b);
    HexStep(q, unit, n3, c);
    QuadIs(s);
  }

  lemma QuadIs(s: string)
    requires |s| >= 4
    ensures HexQuad(s) == OneMoreDigit(OneMoreDigit(OneMoreDigit(OneMoreDigit(Some(0), s[0]), s[1]), s[2]), s[3])
  {
  }

  lemma PairDigits(n: nat, high: nat, low: nat)
    requires 0xD800 <= high < 0xDC00 <= low < 0xE000 && n >= 0x1_0000
    ensures Paired(high, low) == n <==>
      high == 0xD800 + (n - 0x1_0000) / 0x400 && low == 0xDC00 + (n - 0x1_0000) % 0x400
  {
  }

  // ----- Reading one character -----

  lemma ScanPlain(s: string, c: char, used: nat)
    requires s != [] && s[0] != '\\' && s[0] != '\"'
    ensures ScanChar(s) == Some((c, used)) <==> used == 1 && SpellsPlainly(s[..1], c)
  {
  }

  lemma ScanShort(s: string, c: char, used: nat)
    requires |s| >= 2 && s[0] == '\\' && s[1] != 'u'
    ensures ScanChar(s) == Some((c, used)) <==> used == 2 && SpellsShortly(s[..2], c)
  {
  }

  lemma ScanUnit(s: string, c: char)
    requires |s| >= 6 && s[0] == '\\' && s[1] == 'u'
    ensures ScanChar(s) == Some((c, 6)) <==> SpellsByUnit(s[..6], c)
  {
    assert s[2..][..4] == s[..6][2..];
    forall unit: nat
      ensures HexQuad(s[2..]) == Some(unit) <==> SpellsUnit(s[..6][2..], unit)
    {
      QuadIff(s[2..], unit);
    }
  }

  /** Four digits spell one unit only. */
  lemma OneUnit(s: string, a: nat, b: nat)
    requires SpellsUnit(s, a) && SpellsUnit(s, b)
    ensures a == b
  {
    assert s[..4] == s;
    QuadIff(s, a);
    QuadIff(s, b);
  }

  lemma PairUnits(e: string, c: char, high: nat, low: nat)
    requires |e| == 12 && e[0] == '\\' && e[1] == 'u' && e[6] == '\\' && e[7] == 'u'
    requires SpellsUnit(e[2..6], high) && SpellsUnit(e[8..], low)
    ensures SpellsByPair(e, c) <==> 0xD800 <= high < 0xDC00 <= low < 0xE000 && Paired(high, low) == c as int
  {
    if c as int >= 0x1_0000 {
      var h, l := 0xD800 + (c as int - 0x1_0000) / 0x400, 0xDC00 + (c as int - 0x1_0000) % 0x400;
      assert SpellsByPair(e, c) ==> high == h && low == l by {
        if SpellsByPair(e, c) {
          OneUnit(e[2..6], high, h);
          OneUnit(e[8..], low, l);
        }
      }
      assert 0xD800 <= h < 0xDC00 <= l < 0xE000;
      if 0xD800 <= high < 0xDC00 <= low < 0xE000 {
        PairDigits(c as int, high, low);
      }
    }
  }

  lemma ScanPair(s: string, c: char)
    requires |s| >= 12 && s[0] == '\\' && s[1] == 'u'
    ensures ScanChar(s) == Some((c, 12)) <==> SpellsByPair(s[..12], c)
  {
    var e, high, low := s[..12], HexQuad(s[2..]), HexQuad(s[8..]);
    assert s[2..][..4] == e[2..6] && s[8..][..4] == e[8..];
    assert forall unit: nat :: high == Some(unit) <==> SpellsUnit(e[2..6], unit) by {
      forall unit: nat
        ensures high == Some(unit) <==> SpellsUnit(e[2..6], unit)
      {
        QuadIff(s[2..], unit);
      }
    }
    assert forall unit: nat :: low == Some(unit) <==> SpellsUnit(e[8..], unit) by {
      forall unit: nat
        ensures low == Some(unit) <==> SpellsUnit(e[8..], unit)
      {
        QuadIff(s[8..], unit);
      }
    }
    if high.Some? && low.Some? && s[6] == '\\' && s[7] == 'u' {
      PairUnits(e, c, high.value, low.value);
    }
  }

  /** The scanner takes exactly the spellings of a character. */
  lemma ScanCharIff(s: string, c: char, used: nat)
    requires s != [] && s[0] != '\"'
    ensures ScanChar(s) == Some((c, used)) <==> used <= |s| && Spells(s[..used], c)
  {
    if s[0] != '\\' {
      ScanPlain(s, c, used);
    } else if |s| >= 2 && s[1] != 'u' {
      ScanShort(s, c, used);
    } else if |s| >= 2 {
      if |s| >= 6 && used == 6 {
        ScanUnit(s, c);
      } else if |s| >= 12 && used == 12 {
        ScanPair(s, c);
      }
    }
  }

  // ----- String literals -----

  function Concat(pieces: seq<string>): string {
    if pieces == [] then [] else pieces[0] + Concat(pieces[1..])
  }

  predicate SpellsText(pieces: seq<string>, text: string) {
    |pieces| == |text| && forall i | 0 <= i < |text| :: Spells(pieces[i], text[i])
  }

  /** A quote, some spelling of every character of the text, and a quote */
  ghost predicate IsStringLiteral(s: string, text: string) {
    exists pieces :: SpellsText(pieces, text) && s == "\"" + Concat(pieces) + "\""
  }

  lemma {:induction false} ScanSpelt(pieces: seq<string>, text: string)
    requires SpellsText(pieces, text)
    ensures ScanString(Concat(pieces) + "\"") == Some(text)
  {
    if text == [] {
      assert Concat(pieces) + "\"" == "\"";
    } else {
      var p, rest := pieces[0], Concat(pieces[1..]) + "\"";
      var s := Concat(pieces) + "\"";
      assert s == p + rest;
      assert s[..|p|] == p && s[|p|..] == rest;
      ScanCharIff(s, text[0], |p|);
      assert SpellsText(pieces[1..], text[1..]);
      ScanSpelt(pieces[1..], text[1..]);
      assert [text[0]] + text[1..] == text;
    }
  }

  lemma {:induction false} ScannedIsSpelt(s: string, text: string) returns (pieces: seq<string>)
    requires ScanString(s) == Some(text)
    ensures SpellsText(pieces, text) && s == Concat(pieces) + "\""
    decreases |s|
  {
    if s[0] == '\"' {
      pieces := [];
      assert s == [] + "\"";
    } else {
      var (c, used) := ScanChar(s).value;
      ScanCharIff(s, c, used);
      var more := ScannedIsSpelt(s[used..], text[1..]);
      pieces := [s[..used]] + more;
      assert pieces[1..] == more;
      assert s == s[..used] + s[used..];
    }
  }

  lemma LoadString(s: string, text: string, other: OtherLiterals)
    ensures Load(s, other) == Some(JString(text)) <==> s != [] && s[0] == '\"' && ScanString(s[1..]) == Some(text)
  {
  }

  lemma ScannedIsLiteral(s: string, text: string)
    requires s != [] && s[0] == '\"' && ScanString(s[1..]) == Some(text)
    ensures IsStringLiteral(s, text)
  {
    var pieces := ScannedIsSpelt(s[1..], text);
    assert s == "\"" + Concat(pieces) + "\"";
  }

  lemma LiteralIsScanned(s: string, text: string)
    requires IsStringLiteral(s, text)
    ensures s != [] && s[0] == '\"' && ScanString(s[1..]) == Some(text)
  {
    var pieces :| SpellsText(pieces, text) && s == "\"" + Concat(pieces) + "\"";
    ScanSpelt(pieces, text);
    assert s[1..] == Concat(pieces) + "\"";
  }

  lemma StringLiteralIff(s: string, text: string, other: OtherLiterals)
    ensures Load(s, other) == Some(JString(text)) <==> IsStringLiteral(s, text)
  {
    LoadString(s, text, other);
    if Load(s, other) == Some(JString(text)) {
      ScannedIsLiteral(s, text);
    } else if IsStringLiteral(s, text) {
      LiteralIsScanned(s, text);
    }
  }

  // ----- Integer literals -----

  /** A natural number without superfluous zeros is the decimal spelling of its value. */
  lemma {:induction false} NaturalIsDecimal(s: string)
    requires IsNatural(s)
    ensures Decimal(DecimalValue(s)) == s
    decreases |s|
  {
    var n := |s| - 1;
    if n == 0 {
      assert s[..0] == [];
    } else {
      NaturalIsDecimal(s[..n]);
      assert s[..n] != "0";
      assert DecimalValue(s[..n]) != 0;
      assert s == s[..n] + [s[n]];
    }
  }

  lemma NaturalIff(s: string, n: nat)
    ensures IsNatural(s) && DecimalValue(s) == n <==> s == Decimal(n)
  {
    DecimalRoundTrip(n);
    if IsNatural(s) {
      NaturalIsDecimal(s);
    }
  }

  lemma LoadIntIff(s: string, n: int)
    ensures LoadInt(s) == Some(n) <==> s == DumpInt(n) || (n == 0 && s == "-0")
  {
    if n >= 0 {
      NaturalIff(s, n);
    }
    if s != [] {
      if n <= 0 {
        NaturalIff(s[1..], -n);
      }
      assert s[0] == '-' ==> s == "-" + s[1..];
    }
    assert Decimal(0) == "0" && "-0"[1..] == "0";
  }

  /** What a text is as a literal: a string in any of its spellings, an integer in decimal or minus zero, a truth
      value, or otherwise whatever other literals there are. */
  lemma LiteralIff(s: string, v: Value, other: OtherLiterals)
    ensures Load(s, other) == Some(v) <==>
      match v
      case JString(text) => IsStringLiteral(s, text)
      case JInt(n) => s == DumpInt(n) || (n == 0 && s == "-0")
      case JBool(b) => s == if b then "true" else "false"
      case JOther(tag) =>
        && (s == [] || s[0] != '\"') && s != "true" && s != "false"
        && (forall n :: s != DumpInt(n)) && s != "-0" && other(s) == Some(tag)
  {
    match v
    case JString(text) => StringLiteralIff(s, text, other);
    case JInt(n) => IntegerLiteralIff(s, n, other);
    case JBool(b) =>
    case JOther(tag) =>
      forall n
        ensures LoadInt(s) == Some(n) <==> s == DumpInt(n) || (n == 0 && s == "-0")
      {
        LoadIntIff(s, n);
      }
  }

  lemma IntegerLiteralIff(s: string, n: int, other: OtherLiterals)
    ensures Load(s, other) == Some(JInt(n)) <==> s == DumpInt(n) || (n == 0 && s == "-0")
  {
    LoadIntIff(s, n);
    assert DumpInt(n)[0] == '-' || IsDigit(DumpInt(n)[0]);
    assert "true"[0] == 't' && "false"[0] == 'f' && "-0"[0] == '-';
  }
}

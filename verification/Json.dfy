/** The part of JSON that the line protocol decides on: string literals (RFC 8259,
    section 7), integers and booleans.  Every other literal stays opaque: the parameter
    `other` says which texts are accepted and tags the value they denote. */
module Json {
  import opened Text

  datatype Value = JString(text: string) | JInt(number: int) | JBool(flag: bool) | JOther(tag: nat)

  /** Which literals outside strings, integers and booleans are well formed. */
  type OtherLiterals = string -> Option<nat>

  // ----- String literals -----

  function HexChar(d: nat): (c: char)
    requires d < 16
  {
    if d < 10 then '0' + d as char else 'a' + (d - 10) as char
  }

  function HexValue(c: char): Option<nat> {
    if '0' <= c <= '9' then Some(c as int - '0' as int)
    else if 'a' <= c <= 'f' then Some(c as int - 'a' as int + 10)
    else if 'A' <= c <= 'F' then Some(c as int - 'A' as int + 10)
    else None
  }

  function HexQuad(s: string): (r: Option<nat>)
    ensures r.Some? ==> |s| >= 4 && r.value < 0x1_0000
  {
    if |s| < 4 then None
    else
      match (HexValue(s[0]), HexValue(s[1]), HexValue(s[2]), HexValue(s[3]))
      case (Some(a), Some(b), Some(c), Some(d)) =>
        if a < 16 && b < 16 && c < 16 && d < 16
        then Some(0x1000 * a + 0x100 * b + 0x10 * c + d) else None
      case _ => None
  }

  /** What `json.dumps(..., ensure_ascii=False)` writes for one character. */
  function EscapeChar(c: char): (s: string)
    ensures s != []
  {
    if c == '\"' then "\\\""
    else if c == '\\' then "\\\\"
    else if c == '\n' then "\\n"
    else if c == '\r' then "\\r"
    else if c == '\t' then "\\t"
    else if c == '\U{8}' then "\\b"
    else if c == '\U{c}' then "\\f"
    else if c < ' ' then "\\u00" + [HexChar(c as int / 16), HexChar(c as int % 16)]
    else [c]
  }

  function Escape(s: string): string {
    if s == [] then [] else EscapeChar(s[0]) + Escape(s[1..])
  }

  function DumpString(s: string): string {
    "\"" + Escape(s) + "\""
  }

  function SimpleEscape(c: char): Option<char> {
    if c == '\"' || c == '\\' || c == '/' then Some(c)
    else if c == 'b' then Some('\U{8}')
    else if c == 'f' then Some('\U{c}')
    else if c == 'n' then Some('\n')
    else if c == 'r' then Some('\r')
    else if c == 't' then Some('\t')
    else None
  }

  /** Code point of a surrogate pair. */
  function Paired(high: nat, low: nat): (n: nat)
    requires 0xD800 <= high < 0xDC00 <= low < 0xE000
    ensures 0x1_0000 <= n < 0x11_0000
  {
    0x1_0000 + 0x400 * (high - 0xD800) + (low - 0xDC00)
  }

  /** One character at the start of a string body, and how much text it takes.  An escape
      that names half a surrogate pair denotes no scalar value and is refused. */
  function ScanChar(s: string): (r: Option<(char, nat)>)
    requires s != []
    ensures r.Some? ==> 1 <= r.value.1 <= |s|
  {
    if s[0] == '\\' then
      if |s| == 1 then None
      else if s[1] != 'u' then
        match SimpleEscape(s[1])
        case Some(c) => Some((c, 2))
        case None => None
      else
        match HexQuad(s[2..])
        case None => None
        case Some(unit) =>
          if unit < 0xD800 || 0xE000 <= unit then Some((unit as char, 6))
          else if unit < 0xDC00 && |s| >= 12 && s[6] == '\\' && s[7] == 'u' then
            match HexQuad(s[8..])
            case Some(low) =>
              if 0xDC00 <= low < 0xE000 then Some((Paired(unit, low) as char, 12)) else None
            case None => None
          else None
    else if s[0] < ' ' then None
    else Some((s[0], 1))
  }

  /** The string denoted by the text after the opening quote; the first unescaped quote must
      end that text. */
  function ScanString(s: string): Option<string>
    decreases |s|
  {
    if s == [] then None
    else if s[0] == '\"' then (if |s| == 1 then Some([]) else None)
    else
      match ScanChar(s)
      case None => None
      case Some((c, used)) =>
        match ScanString(s[used..])
        case None => None
        case Some(text) => Some([c] + text)
  }

  lemma ScanEscapedChar(c: char, rest: string)
    ensures (EscapeChar(c) + rest)[0] != '\"'
    ensures ScanChar(EscapeChar(c) + rest) == Some((c, |EscapeChar(c)|))
  {
    var e := EscapeChar(c);
    var s := e + rest;
    if c < ' ' && |e| == 6 {
      var hi, lo := c as int / 16, c as int % 16;
      assert s[0] == '\\' && s[1] == 'u';
      assert s[2..][0] == '0' && s[2..][1] == '0' && s[2..][2] == HexChar(hi) && s[2..][3] == HexChar(lo);
      assert HexValue(HexChar(hi)) == Some(hi) && HexValue(HexChar(lo)) == Some(lo);
      assert HexQuad(s[2..]) == Some(c as int);
    }
  }

  lemma {:induction false} ScanEscaped(s: string)
    ensures ScanString(Escape(s) + "\"") == Some(s)
  {
    if s != [] {
      var rest := Escape(s[1..]) + "\"";
      assert Escape(s) + "\"" == EscapeChar(s[0]) + rest;
      ScanEscapedChar(s[0], rest);
      assert (EscapeChar(s[0]) + rest)[|EscapeChar(s[0])|..] == rest;
      ScanEscaped(s[1..]);
      assert [s[0]] + s[1..] == s;
    } else {
      assert Escape(s) + "\"" == "\"";
    }
  }

  lemma {:induction false} EscapeIsSingleLine(s: string)
    ensures SingleLine(Escape(s))
  {
    if s != [] {
      EscapeIsSingleLine(s[1..]);
      assert SingleLine(EscapeChar(s[0]));
    }
  }

  // ----- Integer literals -----

  predicate IsNatural(s: string) {
    s != [] && AllDigits(s) && (s[0] == '0' ==> |s| == 1)
  }

  function DumpInt(n: int): string {
    if n < 0 then "-" + Decimal(-n) else Decimal(n)
  }

  function LoadInt(s: string): Option<int> {
    if IsNatural(s) then Some(DecimalValue(s))
    else if s != [] && s[0] == '-' && IsNatural(s[1..]) then Some(0 - DecimalValue(s[1..]))
    else None
  }

  lemma DumpIntRoundTrip(n: int)
    ensures LoadInt(DumpInt(n)) == Some(n)
  {
    DecimalRoundTrip(if n < 0 then -n else n);
    if n < 0 {
      assert DumpInt(n)[1..] == Decimal(-n);
    }
  }

  // ----- Literals -----

  /** `json.loads` on one literal */
  function Load(s: string, other: OtherLiterals): Option<Value> {
    if s != [] && s[0] == '\"' then
      match ScanString(s[1..])
      case Some(text) => Some(JString(text))
      case None => None
    else if s == "true" then Some(JBool(true))
    else if s == "false" then Some(JBool(false))
    else if LoadInt(s).Some? then Some(JInt(LoadInt(s).value))
    else
      match other(s)
      case Some(tag) => Some(JOther(tag))
      case None => None
  }

  function DumpBool(b: bool): string {
    if b then "true" else "false"
  }

  /** The literal that `json.dumps` writes for a concrete value */
  function Dump(v: Value): string
    requires !v.JOther?
  {
    match v
    case JString(s) => DumpString(s)
    case JInt(n) => DumpInt(n)
    case JBool(b) => DumpBool(b)
  }

  lemma DumpStringRoundTrip(s: string, other: OtherLiterals)
    ensures Load(DumpString(s), other) == Some(JString(s))
    ensures SingleLine(DumpString(s)) && Trimmed(DumpString(s))
  {
    ScanEscaped(s);
    EscapeIsSingleLine(s);
    assert DumpString(s)[1..] == Escape(s) + "\"";
  }

  lemma LoadInteger(n: int, other: OtherLiterals)
    ensures Load(DumpInt(n), other) == Some(JInt(n))
  {
    DumpIntRoundTrip(n);
    assert DumpInt(n)[0] == '-' || IsDigit(DumpInt(n)[0]);
    assert "true"[0] == 't' && "false"[0] == 'f';
  }

  /** Writing a value and reading the literal back gives the value, on one line and with no
      surrounding whitespace. */
  lemma DumpRoundTrip(v: Value, other: OtherLiterals)
    requires !v.JOther?
    ensures Load(Dump(v), other) == Some(v)
    ensures Dump(v) != [] && SingleLine(Dump(v)) && Trimmed(Dump(v))
  {
    match v
    case JString(s) =>
      DumpStringRoundTrip(s, other);
    case JInt(n) =>
      LoadInteger(n, other);
      DecimalIsPlain(if n < 0 then -n else n);
    case JBool(b) =>
  }

  lemma DecimalIsPlain(n: nat)
    ensures SingleLine(Decimal(n)) && Trimmed(Decimal(n))
  {
    var s := Decimal(n);
    assert forall i | 0 <= i < |s| :: s[i] != '\n' && s[i] != '\r' && !IsSpace(s[i]);
  }
}

/** Lines of a line-protocol document and what each of them means on its own. */
module Tokens {
  import opened Text
  import opened Json

  /** `Bad` is any line that makes the whole document invalid. */
  datatype Token =
    | Open(typ: string)
    | Close(typ: string)
    | Entry(path: string, value: Value)
    | Bad

  // ----- Names -----

  /** The characters that the case-insensitive class [A-Z] matches: besides the ASCII letters
      these are the dotted and the dotless i, the Kelvin sign and the long s. */
  predicate IsLetter(c: char) {
    || 'A' <= c <= 'Z' || 'a' <= c <= 'z'
    || c == '\U{130}' || c == '\U{131}' || c == '\U{212a}' || c == '\U{17f}'
  }

  predicate IsNameChar(c: char) {
    IsLetter(c) || IsDigit(c) || c == '_'
  }

  predicate IsName(s: string) {
    s != [] && IsLetter(s[0]) && forall i | 0 <= i < |s| :: IsNameChar(s[i])
  }

  /** Names joined by single dots */
  predicate IsPath(s: string) {
    && s != [] && IsLetter(s[0])
    && (forall i | 0 <= i < |s| :: IsNameChar(s[i]) || s[i] == '.')
    && (forall i | 0 <= i < |s| && s[i] == '.' :: i + 1 < |s| && IsLetter(s[i + 1]))
  }

  /** `str.upper` on the characters of a name; two of the non-ASCII letters have no other
      upper case. */
  function UpperChar(c: char): char {
    if 'a' <= c <= 'z' then 'A' + (c - 'a')
    else if c == '\U{131}' then 'I'
    else if c == '\U{17f}' then 'S'
    else c
  }

  function Upper(s: string): (r: string)
    ensures |r| == |s|
    ensures forall i | 0 <= i < |s| :: r[i] == UpperChar(s[i])
  {
    seq(|s|, i requires 0 <= i < |s| => UpperChar(s[i]))
  }

  predicate IsAsciiName(s: string) {
    && s != [] && 'A' <= s[0] <= 'Z'
    && forall i | 0 <= i < |s| :: 'A' <= s[i] <= 'Z' || IsDigit(s[i]) || s[i] == '_'
  }

  // ----- Boundaries -----

  /** Case-insensitive match of one keyword letter */
  predicate MatchesLetter(c: char, letter: char) {
    UpperChar(c) == letter || (letter == 'I' && c == '\U{130}')
  }

  predicate IsBoundary(line: string, keyword: string) {
    && |line| > |keyword|
    && (forall i | 0 <= i < |keyword| :: MatchesLetter(line[i], keyword[i]))
    && (line[|keyword|] == ' ' || line[|keyword|] == '_')
    && IsName(line[|keyword| + 1..])
  }

  const BEGIN := "BEGIN"
  const END := "END"

  // ----- Scalars -----

  /** Index of the first '=', or the length of the line */
  function EqualsAt(line: string): (i: nat)
    ensures i <= |line|
    ensures i < |line| ==> line[i] == '='
    ensures forall k | 0 <= k < i :: line[k] != '='
  {
    if line == [] || line[0] == '=' then 0 else 1 + EqualsAt(line[1..])
  }

  function ScalarToken(path: string, literal: string, other: OtherLiterals): Token {
    if !IsPath(path) || literal == [] || Strip(literal) != literal then Bad
    else
      match Load(literal, other)
      case Some(value) => Entry(Upper(path), value)
      case None => Bad
  }

  /** The meaning of one line.  A keyword spelt with the dotted capital I is still matched
      as BEGIN, but does not upper-case to it, and so closes a block. */
  function Tokenize(line: string, other: OtherLiterals): Token {
    if line == [] || line[0] == '#' then Bad
    else if IsBoundary(line, BEGIN) then
      var typ := Upper(line[|BEGIN| + 1..]);
      if Upper(line[..|BEGIN|]) != BEGIN then Close(typ)
      else if IsAsciiName(typ) then Open(typ)
      else Bad
    else if IsBoundary(line, END) then Close(Upper(line[|END| + 1..]))
    else
      var i := EqualsAt(line);
      if i == |line| then Bad else ScalarToken(line[..i], line[i + 1..], other)
  }

  /** `document` cut into lines as the parser sees them */
  function Lines(document: string): seq<string> {
    var lines := Split(ReplaceCr(ReplaceCrLf(document)));
    if lines[|lines| - 1] == [] then lines[..|lines| - 1] else lines
  }

  function TokenizeAll(lines: seq<string>, other: OtherLiterals): (tokens: seq<Token>)
    ensures |tokens| == |lines|
    ensures forall i | 0 <= i < |lines| :: tokens[i] == Tokenize(lines[i], other)
  {
    seq(|lines|, i requires 0 <= i < |lines| => Tokenize(lines[i], other))
  }

  // ----- Printing -----

  /** The canonical line for a token */
  function PrintToken(t: Token): string
    requires Printable(t)
  {
    match t
    case Open(typ) => "BEGIN " + typ
    case Close(typ) => "END " + typ
    case Entry(path, value) => path + "=" + Dump(value)
  }

  /** Tokens that some canonical line denotes */
  predicate Printable(t: Token) {
    match t
    case Open(typ) => IsAsciiName(typ)
    case Close(typ) => IsAsciiName(typ)
    case Entry(path, value) => IsPath(path) && Upper(path) == path && !value.JOther?
    case Bad => false
  }

  function PrintAll(tokens: seq<Token>): (lines: seq<string>)
    requires forall i | 0 <= i < |tokens| :: Printable(tokens[i])
    ensures |lines| == |tokens|
    ensures forall i | 0 <= i < |tokens| :: lines[i] == PrintToken(tokens[i])
  {
    seq(|tokens|, i requires 0 <= i < |tokens| && Printable(tokens[i]) => PrintToken(tokens[i]))
  }

  lemma AsciiNameIsName(s: string)
    requires IsAsciiName(s)
    ensures IsName(s) && Upper(s) == s && SingleLine(s)
  {
    forall i | 0 <= i < |s|
      ensures IsNameChar(s[i]) && UpperChar(s[i]) == s[i] && s[i] != '\n' && s[i] != '\r'
    {
    }
  }

  lemma TokenizePrintedBegin(typ: string, other: OtherLiterals)
    requires IsAsciiName(typ)
    ensures Tokenize("BEGIN " + typ, other) == Open(typ) && SingleLine("BEGIN " + typ)
  {
    AsciiNameIsName(typ);
    var line := "BEGIN " + typ;
    assert line[|BEGIN| + 1..] == typ;
    assert line[..|BEGIN|] == BEGIN;
    assert Upper(BEGIN) == BEGIN;
    assert forall i | 0 <= i < |BEGIN| :: line[i] == BEGIN[i] && MatchesLetter(line[i], BEGIN[i]);
  }

  lemma TokenizePrintedEnd(typ: string, other: OtherLiterals)
    requires IsAsciiName(typ)
    ensures Tokenize("END " + typ, other) == Close(typ) && SingleLine("END " + typ)
  {
    AsciiNameIsName(typ);
    var line := "END " + typ;
    assert line[|END| + 1..] == typ;
    assert !IsBoundary(line, BEGIN) by {
      assert line[0] == 'E';
      assert !MatchesLetter(line[0], BEGIN[0]);
    }
    assert IsBoundary(line, END) by {
      assert forall i | 0 <= i < |END| :: line[i] == END[i] && MatchesLetter(line[i], END[i]);
    }
  }

  lemma EqualsAfterPath(path: string, literal: string)
    requires IsPath(path)
    ensures var line := path + "=" + literal; EqualsAt(line) == |path| && line[0] != '#'
  {
    var line := path + "=" + literal;
    assert forall k | 0 <= k < |path| :: line[k] == path[k] && path[k] != '=';
    assert line[|path|] == '=';
  }

  lemma BoundaryHasNoEquals(line: string, keyword: string)
    requires keyword == BEGIN || keyword == END
    requires IsBoundary(line, keyword)
    ensures EqualsAt(line) == |line| && line[0] != '#'
  {
    var n := |keyword|;
    assert forall k | 0 <= k < n :: MatchesLetter(line[k], keyword[k]) && line[k] != '=' && line[k] != '#';
    assert forall k | n + 1 <= k < |line| :: line[k] == line[n + 1..][k - n - 1] && line[k] != '=';
  }

  lemma EqualsMeansNoBoundary(line: string)
    requires EqualsAt(line) < |line|
    ensures !IsBoundary(line, BEGIN) && !IsBoundary(line, END)
  {
    if IsBoundary(line, BEGIN) {
      BoundaryHasNoEquals(line, BEGIN);
    } else if IsBoundary(line, END) {
      BoundaryHasNoEquals(line, END);
    }
  }

  /** A line with '=' in it is read as a scalar. */
  lemma TokenizeScalar(line: string, other: OtherLiterals)
    requires line != [] && line[0] != '#' && EqualsAt(line) < |line|
    ensures Tokenize(line, other) == ScalarToken(line[..EqualsAt(line)], line[EqualsAt(line) + 1..], other)
  {
    EqualsMeansNoBoundary(line);
  }

  lemma PathIsSingleLine(path: string)
    requires IsPath(path)
    ensures SingleLine(path)
  {
    assert forall i | 0 <= i < |path| :: path[i] != '\n' && path[i] != '\r';
  }

  lemma ScalarTokenPrinted(path: string, value: Value, other: OtherLiterals)
    requires Printable(Entry(path, value))
    ensures ScalarToken(path, Dump(value), other) == Entry(path, value) && SingleLine(Dump(value))
  {
    DumpRoundTrip(value, other);
    TrimmedIsFixed(Dump(value));
  }

  lemma TokenizePrintedEntry(path: string, value: Value, other: OtherLiterals)
    requires Printable(Entry(path, value))
    ensures Tokenize(path + "=" + Dump(value), other) == Entry(path, value)
    ensures SingleLine(path + "=" + Dump(value))
  {
    var literal := Dump(value);
    var line := path + "=" + literal;
    EqualsAfterPath(path, literal);
    ScalarTokenPrinted(path, value, other);
    PathIsSingleLine(path);
    TokenizeScalar(line, other);
    assert line[..|path|] == path && line[|path| + 1..] == literal;
  }

  lemma TokenizePrinted(t: Token, other: OtherLiterals)
    requires Printable(t)
    ensures Tokenize(PrintToken(t), other) == t
    ensures SingleLine(PrintToken(t)) && PrintToken(t) != []
  {
    match t
    case Open(typ) => TokenizePrintedBegin(typ, other);
    case Close(typ) => TokenizePrintedEnd(typ, other);
    case Entry(path, value) => TokenizePrintedEntry(path, value, other);
  }

  /** Writing tokens one per line and cutting the document again gives the tokens. */
  lemma PrintedTokens(tokens: seq<Token>, other: OtherLiterals)
    requires tokens != [] && forall i | 0 <= i < |tokens| :: Printable(tokens[i])
    ensures TokenizeAll(Lines(Join(PrintAll(tokens))), other) == tokens
  {
    var lines := PrintAll(tokens);
    forall i | 0 <= i < |tokens|
      ensures Tokenize(lines[i], other) == tokens[i] && SingleLine(lines[i]) && lines[i] != []
    {
      TokenizePrinted(tokens[i], other);
    }
    JoinHasNoCr(lines);
    NoCrUnchanged(Join(lines));
    SplitJoin(lines);
    assert Lines(Join(lines)) == lines;
  }

  // ----- Spelling -----

  /** Two spellings of the same boundary: letter case differs, or the separator does. */
  predicate SameBoundary(a: string, b: string, keyword: string) {
    && IsBoundary(a, keyword) && IsBoundary(b, keyword)
    && Upper(a[..|keyword|]) == Upper(b[..|keyword|])
    && Upper(a[|keyword| + 1..]) == Upper(b[|keyword| + 1..])
  }

  /** Two spellings of the same scalar line: the path differs in letter case. */
  predicate SameScalar(a: string, b: string) {
    var i := EqualsAt(a);
    && i == EqualsAt(b) < |a| == |b|
    && Upper(a[..i]) == Upper(b[..i])
    && a[i..] == b[i..]
  }

  predicate SameSpelling(a: string, b: string) {
    a == b || SameBoundary(a, b, BEGIN) || SameBoundary(a, b, END) || SameScalar(a, b)
  }

  lemma UpperKeepsClasses(c: char, d: char)
    requires UpperChar(c) == UpperChar(d)
    ensures IsLetter(c) == IsLetter(d) && IsNameChar(c) == IsNameChar(d)
    ensures (c == '.') == (d == '.') && (c == '#') == (d == '#')
  {
  }

  lemma UpperKeepsPaths(a: string, b: string)
    requires Upper(a) == Upper(b)
    ensures IsPath(a) == IsPath(b)
    ensures a != [] ==> b != [] && (a[0] == '#') == (b[0] == '#')
  {
    assert |a| == |b|;
    forall i | 0 <= i < |a|
      ensures IsLetter(a[i]) == IsLetter(b[i]) && IsNameChar(a[i]) == IsNameChar(b[i])
      ensures (a[i] == '.') == (b[i] == '.') && (a[i] == '#') == (b[i] == '#')
    {
      assert Upper(a)[i] == Upper(b)[i];
      UpperKeepsClasses(a[i], b[i]);
    }
  }

  lemma OneKeyword(line: string)
    requires IsBoundary(line, END)
    ensures !IsBoundary(line, BEGIN)
  {
    assert MatchesLetter(line[1], END[1]);
    assert BEGIN[1] == 'E' && END[1] == 'N';
  }

  lemma SameScalarTokens(a: string, b: string, other: OtherLiterals)
    requires SameScalar(a, b)
    ensures Tokenize(a, other) == Tokenize(b, other)
  {
    var i := EqualsAt(a);
    UpperKeepsPaths(a[..i], b[..i]);
    assert a[i + 1..] == a[i..][1..] && b[i + 1..] == b[i..][1..];
    if i > 0 {
      assert a[..i][0] == a[0] && b[..i][0] == b[0];
    }
    if a[0] != '#' {
      TokenizeScalar(a, other);
      TokenizeScalar(b, other);
    }
  }

  lemma SameSpellingTokens(a: string, b: string, other: OtherLiterals)
    requires SameSpelling(a, b)
    ensures Tokenize(a, other) == Tokenize(b, other)
  {
    if SameBoundary(a, b, BEGIN) {
      BoundaryHasNoEquals(a, BEGIN);
      BoundaryHasNoEquals(b, BEGIN);
    } else if SameBoundary(a, b, END) {
      BoundaryHasNoEquals(a, END);
      BoundaryHasNoEquals(b, END);
      OneKeyword(a);
      OneKeyword(b);
    } else if SameScalar(a, b) {
      SameScalarTokens(a, b, other);
    }
  }

  /** Respelling boundary and field names line by line does not change the tokens. */
  lemma RespeltTokens(a: seq<string>, b: seq<string>, other: OtherLiterals)
    requires |a| == |b| && forall i | 0 <= i < |a| :: SameSpelling(a[i], b[i])
    ensures TokenizeAll(a, other) == TokenizeAll(b, other)
  {
    forall i | 0 <= i < |a|
      ensures Tokenize(a[i], other) == Tokenize(b[i], other)
    {
      SameSpellingTokens(a[i], b[i], other);
    }
  }
}

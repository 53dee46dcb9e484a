/** Which decisions the ReAct loop recognises: its lines end at newlines, the parser's at carriage returns too. */
module DecisionLines {
  import opened Text
  import opened CutLines
  import opened Json
  import opened Tokens
  import opened LineProtocol
  import opened Parser
  import opened Decoders
  import opened BoundedLoop
  import opened ReactLoop
  import opened ReactProtocol

  /** A decision line is letters, one blank or underscore, and blanks at its end. */
  lemma {:induction false} DropBlanksKeeps(s: string, c: char)
    requires c in s && !IsBlank(c)
    ensures c in DropBlanks(s)
  {
    if IsBlank(s[|s| - 1]) {
      assert s == s[..|s| - 1] + [s[|s| - 1]];
      DropBlanksKeeps(s[..|s| - 1], c);
    }
  }

  lemma WordHasNo(s: string, word: string, c: char)
    requires Spells(s, word) && forall letter | letter in word :: !MatchesLetter(c, letter)
    ensures c !in s
  {
  }

  lemma DecisionLineHasNo(line: string, c: char)
    requires c == '\r' || c == '\n' || c == '='
    requires DecisionLine(line)
    ensures c !in line
  {
    var text := DropBlanks(line);
    WordHasNo(text[..|BEGIN|], BEGIN, c);
    WordHasNo(text[|BEGIN| + 1..], DECISION, c);
    assert text == text[..|BEGIN|] + [text[|BEGIN|]] + text[|BEGIN| + 1..];
    if c in line {
      DropBlanksKeeps(line, c);
    }
  }

  /** For every text: the loop recognises a decision exactly when one of the parser's lines opens a decision block
      apart from trailing blanks, begins the text or follows a newline, and is followed by a newline or nothing. */
  lemma DeclaredIsCleanLine(content: string)
    ensures DeclaresDecision(content) <==> AnyClean(DecisionLine, Pieces(content, true))
  {
    forall line | DecisionLine(line)
      ensures '\r' !in line
    {
      DecisionLineHasNo(line, '\r');
    }
    MarkedIsClean(DecisionLine, content, true);
  }

  // ----- Responses that decode to a decision -----

  lemma {:induction false} FlatYield(items: seq<Item>)
    requires ChildrenOf(items) == []
    ensures forall t | t in YieldItems(items) :: t.Entry?
  {
    if items != [] {
      FlatYield(items[..|items| - 1]);
    }
  }

  /** A document of one block: its opening line, its fields, its closing line */
  ghost predicate OneBlock(tokens: seq<Token>, typ: string) {
    && |tokens| >= 2 && tokens[0] == Open(typ) && tokens[|tokens| - 1] == Close(typ)
    && forall k | 0 < k < |tokens| - 1 :: tokens[k].Entry?
  }

  lemma BlockTokens(n: Node)
    requires ChildrenOf(n.items) == []
    ensures OneBlock(Yield(n), n.typ)
  {
    FlatYield(n.items);
    var tokens, fields := Yield(n), YieldItems(n.items);
    assert tokens == [Open(n.typ)] + fields + [Close(n.typ)];
    forall k | 0 < k < |tokens| - 1
      ensures tokens[k].Entry?
    {
      assert tokens[k] == fields[k - 1] && fields[k - 1] in fields;
    }
  }

  lemma DecisionBlock(b: Block)
    requires DecisionOf(b).Some?
    ensures b.typ == DECISION && b.children == []
  {
  }

  lemma DecodedTokens(content: string, other: OtherLiterals)
    requires DecodeDecision(content, other).Some?
    ensures OneBlock(TokenizeAll(Lines(content), other), DECISION)
  {
    var b := Parse(content, other).value;
    DecisionBlock(b);
    ParseIsGrammar(content, other, b);
    var n :| Yield(n) == TokenizeAll(Lines(content), other) && Meaning(n) == b;
    BlockTokens(n);
  }

  lemma EntryIsNoDecision(line: string, other: OtherLiterals, t: Token)
    requires t == Tokenize(line, other) && t.Entry?
    ensures !DecisionLine(line)
  {
    assert line[EqualsAt(line)] == '=';
    if DecisionLine(line) {
      DecisionLineHasNo(line, '=');
    }
  }

  lemma {:induction false} DropBlanksIsPrefix(s: string)
    ensures DropBlanks(s) <= s
  {
    if s != [] && IsBlank(s[|s| - 1]) {
      DropBlanksIsPrefix(s[..|s| - 1]);
    }
  }

  lemma DecisionLineBegins(line: string)
    requires DecisionLine(line)
    ensures !IsBoundary(line, END)
  {
    DropBlanksIsPrefix(line);
    var text := DropBlanks(line);
    assert MatchesLetter(text[..|BEGIN|][0], BEGIN[0]) && line[0] == text[0];
    assert !MatchesLetter(line[0], END[0]);
  }

  /** The line is taken for an opening one exactly when it spells BEGIN. */
  predicate OpensByKeyword(line: string) {
    DecisionLine(line) <==> IsBoundary(line, BEGIN)
  }

  /** A closing line is taken for an opening one exactly when it spells BEGIN, with the dotted capital I. */
  lemma ClosingLooksOpen(line: string, other: OtherLiterals)
    requires Tokenize(line, other) == Close(DECISION)
    ensures OpensByKeyword(line)
  {
    if IsBoundary(line, BEGIN) {
      BoundaryIsTight(line, BEGIN);
      UpperSpells(line[|BEGIN| + 1..], DECISION);
      assert Spells(line[..|BEGIN|], BEGIN);
    }
    if DecisionLine(line) {
      DecisionLineBegins(line);
    }
  }

  /** `lines` are the lines of the pieces, without an empty last one. */
  ghost predicate Covers(pieces: seq<Piece>, lines: seq<string>) {
    && |lines| <= |pieces| <= |lines| + 1
    && (forall k | 0 <= k < |lines| :: pieces[k].line == lines[k])
    && (|pieces| == |lines| + 1 ==> pieces[|lines|].line == [])
  }

  ghost predicate Laid(content: string, pieces: seq<Piece>, lines: seq<string>) {
    pieces == Pieces(content, true) && Covers(pieces, lines)
  }

  lemma LinesAreLaid(content: string)
    ensures Laid(content, Pieces(content, true), Lines(content))
  {
    PiecesAreLines(content, true);
    assert LinesOf(Pieces(content, true)) == Split(Normal(content));
  }

  /** Lines of one decision block: an opening, fields and a closing, which may spell BEGIN. */
  ghost predicate OneDecision(lines: seq<string>) {
    && |lines| >= 2 && DecisionLine(lines[0])
    && OpensByKeyword(lines[|lines| - 1])
    && forall k | 0 < k < |lines| - 1 :: !DecisionLine(lines[k])
  }

  lemma InnerLines(lines: seq<string>, tokens: seq<Token>, other: OtherLiterals)
    requires tokens == TokenizeAll(lines, other) && OneBlock(tokens, DECISION)
    ensures forall k | 0 < k < |lines| - 1 :: !DecisionLine(lines[k])
  {
    forall k | 0 < k < |lines| - 1
      ensures !DecisionLine(lines[k])
    {
      EntryIsNoDecision(lines[k], other, tokens[k]);
    }
  }

  lemma OpeningToken(lines: seq<string>, tokens: seq<Token>, typ: string, other: OtherLiterals)
    requires tokens == TokenizeAll(lines, other) && OneBlock(tokens, typ)
    ensures |lines| >= 2 && Tokenize(lines[0], other) == Open(typ)
  {
    assert tokens[0] == Tokenize(lines[0], other);
  }

  lemma ClosingToken(lines: seq<string>, tokens: seq<Token>, typ: string, other: OtherLiterals)
    requires tokens == TokenizeAll(lines, other) && OneBlock(tokens, typ)
    ensures |lines| >= 2 && Tokenize(lines[|lines| - 1], other) == Close(typ)
  {
    assert |tokens| == |lines|;
    assert tokens[|lines| - 1] == Tokenize(lines[|lines| - 1], other);
  }

  lemma OpeningLine(lines: seq<string>, tokens: seq<Token>, other: OtherLiterals)
    requires tokens == TokenizeAll(lines, other) && OneBlock(tokens, DECISION)
    ensures |lines| >= 2 && DecisionLine(lines[0])
  {
    OpeningToken(lines, tokens, DECISION, other);
    OpeningIsDecisionLine(lines[0], other);
  }

  lemma ClosingLine(lines: seq<string>, tokens: seq<Token>, other: OtherLiterals)
    requires tokens == TokenizeAll(lines, other) && OneBlock(tokens, DECISION)
    ensures |lines| >= 2 && OpensByKeyword(lines[|lines| - 1])
  {
    ClosingToken(lines, tokens, DECISION, other);
    ClosingLooksOpen(lines[|lines| - 1], other);
  }

  lemma BlockLines(lines: seq<string>, tokens: seq<Token>, other: OtherLiterals)
    requires tokens == TokenizeAll(lines, other) && OneBlock(tokens, DECISION)
    ensures OneDecision(lines)
  {
    OpeningLine(lines, tokens, other);
    ClosingLine(lines, tokens, other);
    InnerLines(lines, tokens, other);
  }

  lemma NothingIsNoDecision()
    ensures !DecisionLine([])
  {
  }

  /** The closing line spells BEGIN and ends the response, between newlines or with nothing behind it. */
  predicate ClosesAsBegin(content: string, closing: string) {
    IsBoundary(closing, BEGIN) && StandsAlone(content, closing)
  }

  /** Only the first and the last line of a decision block can be recognised. */
  lemma RecognisedPiece(pieces: seq<Piece>, lines: seq<string>, k: nat)
    requires Covers(pieces, lines) && OneDecision(lines) && k < |pieces| && DecisionLine(pieces[k].line)
    ensures k == 0 || (k == |lines| - 1 && IsBoundary(lines[k], BEGIN))
  {
    NothingIsNoDecision();
  }

  /** Lines of one decision block are recognised by the opening line or by the closing line. */
  lemma RecognisedAt(content: string, pieces: seq<Piece>, lines: seq<string>, k: nat)
    requires Laid(content, pieces, lines) && OneDecision(lines)
    requires k < |pieces| && Clean(DecisionLine, pieces[k])
    ensures pieces[0].closed || ClosesAsBegin(content, lines[|lines| - 1])
  {
    RecognisedPiece(pieces, lines, k);
    if k > 0 {
      CleanStandsAlone(content, pieces, k);
    }
  }

  lemma ClosingDeclares(content: string, closing: string)
    requires DecisionLine(closing) && StandsAlone(content, closing)
    ensures DeclaresDecision(content)
  {
    DecisionLineHasNo(closing, '\n');
    StandingAloneIsCut(content, closing);
  }

  lemma LaidIsDeclaredIff(content: string, pieces: seq<Piece>, lines: seq<string>)
    requires Laid(content, pieces, lines) && OneDecision(lines)
    ensures |lines[0]| < |content| && IsBreak(content[|lines[0]|])
    ensures DeclaresDecision(content) <==>
      content[|lines[0]|] == '\n' || ClosesAsBegin(content, lines[|lines| - 1])
  {
    FirstPiece(content, pieces);
    DeclaredIsCleanLine(content);
    if AnyClean(DecisionLine, pieces) {
      var k :| 0 <= k < |pieces| && Clean(DecisionLine, pieces[k]);
      RecognisedAt(content, pieces, lines, k);
    } else {
      assert !Clean(DecisionLine, pieces[0]);
      if ClosesAsBegin(content, lines[|lines| - 1]) {
        ClosingDeclares(content, lines[|lines| - 1]);
      }
    }
  }

  /** A response that decodes to a decision is recognised as one exactly when a newline ends its opening line, or
      its closing line spells BEGIN with the dotted capital I and stands alone at the end. */
  lemma DecisionIsDeclaredIff(content: string, lines: seq<string>, other: OtherLiterals)
    requires DecodeDecision(content, other).Some? && lines == Lines(content)
    ensures |lines| >= 2 && |lines[0]| < |content| && IsBreak(content[|lines[0]|])
    ensures DeclaresDecision(content) <==>
      content[|lines[0]|] == '\n' || ClosesAsBegin(content, lines[|lines| - 1])
  {
    DecodedTokens(content, other);
    BlockLines(lines, TokenizeAll(lines, other), other);
    LinesAreLaid(content);
    LaidIsDeclaredIff(content, Pieces(content, true), lines);
  }

  // ----- What that means for the loop -----

  predicate RunsTools(events: seq<Event>) {
    exists i | 0 <= i < |events| :: events[i].ToolsRun?
  }

  lemma RoundRunsTools(c: Codec, env: Environment, n: nat, jc: nat)
    requires env.ready(n) && env.model(n).Response? && env.model(n).calls != []
    ensures RunsTools(RoundOf(c, env, n, jc).events) <==> !c.declares(env.model(n).content)
  {
    if !c.declares(env.model(n).content) {
      assert RoundOf(c, env, n, jc).events[1].ToolsRun?;
    }
  }

  /** In a round whose response calls tools and carries a decision, the tools are run exactly when a carriage
      return ends the opening line and the closing line is not taken for an opening one. */
  lemma DecisionRunsToolsIff(count: nat, other: OtherLiterals, env: Environment, n: nat, jc: nat, content: string,
                             lines: seq<string>)
    requires env.ready(n) && env.model(n).Response? && env.model(n).calls != [] && env.model(n).content == content
    requires DecodeDecision(content, other).Some? && lines == Lines(content)
    ensures |lines| >= 2 && |lines[0]| < |content|
    ensures RunsTools(RoundOf(CodecOf(count, other), env, n, jc).events) <==>
      content[|lines[0]|] == '\r' && !ClosesAsBegin(content, lines[|lines| - 1])
  {
    DecisionIsDeclaredIff(content, lines, other);
    RoundRunsTools(CodecOf(count, other), env, n, jc);
  }
}

/** The ReAct loop over the texts of this protocol: what its codec recognises, and what a completed answer means. */
module ReactProtocol {
  import opened Text
  import opened Json
  import opened Tokens
  import opened LineProtocol
  import opened Parser
  import opened Decoders
  import opened BoundedLoop
  import opened ReactLoop
  import FeedbackRoundTrip
  import Canonical

  // ----- Recognising decisions and plain answers -----

  predicate IsBlank(c: char) {
    c == ' ' || c == '\t'
  }

  function DropBlanks(s: string): string {
    if s != [] && IsBlank(s[|s| - 1]) then DropBlanks(s[..|s| - 1]) else s
  }

  const DECISION := "REACT_DECISION"

  /** Case-insensitive match of a whole text in capitals */
  predicate Spells(s: string, word: string) {
    |s| == |word| && forall i | 0 <= i < |word| :: MatchesLetter(s[i], word[i])
  }

  /** A line that opens a decision block, apart from trailing blanks */
  predicate DecisionLine(line: string) {
    var text := DropBlanks(line);
    && |text| > |BEGIN| && (text[|BEGIN|] == ' ' || text[|BEGIN|] == '_')
    && Spells(text[..|BEGIN|], BEGIN) && Spells(text[|BEGIN| + 1..], DECISION)
  }

  /** Some line, as newlines alone cut them, opens a decision block. */
  predicate DeclaresDecision(content: string) {
    exists i | 0 <= i < |Split(content)| :: DecisionLine(Split(content)[i])
  }

  /** The first line opens a protocol block of any type. */
  predicate BeginsBlock(content: string) {
    var lines := Split(content);
    var first := lines[0];
    var line := if |lines| > 1 && first != [] && first[|first| - 1] == '\r' then first[..|first| - 1] else first;
    IsBoundary(DropBlanks(line), BEGIN)
  }

  function LowerChar(c: char): char {
    if 'A' <= c <= 'Z' then 'a' + (c - 'A') else c
  }

  predicate Reads(s: string, word: string) {
    |s| == |word| && forall i | 0 <= i < |word| :: LowerChar(s[i]) == word[i]
  }

  /** Text that is no protocol attempt and more than an acknowledgement counts as an answer. */
  predicate PlainAnswer(content: string) {
    var text := Strip(content);
    text != [] && !BeginsBlock(content) && !Reads(text, "done") && !Reads(text, "still done")
  }

  // ----- The codec -----

  /** Rulings by criteria when there are any, otherwise by the goal as a whole */
  function RuleOn(content: string, count: nat, other: OtherLiterals): Option<Ruling> {
    if count > 0 then
      match DecodeJudgment(content, count, other)
      case Some(j) => Some(Ruling(j.allCompleted, j.verdicts))
      case None => None
    else
      match DecodeGoal(content, other)
      case Some(v) => Some(Ruling(v.completed, []))
      case None => None
  }

  function CodecOf(count: nat, other: OtherLiterals): Codec {
    Codec(content => DecodeDecision(content, other), content => PlainAnswer(content),
          content => DeclaresDecision(content),
          (r: JudgeReply) => if r.JudgeRaises? then None else RuleOn(r.content, count, other))
  }

  // ----- Main results -----

  /** The judge confirmed the whole goal, or every criterion of 1..count in order with its evidence. */
  ghost predicate Confirms(content: string, count: nat, other: OtherLiterals) {
    if count > 0 then
      exists j: Judgment | DecodeJudgment(content, count, other) == Some(j) ::
        WellFormed(j, count) && AllVerified(j.verdicts)
    else DecodeGoal(content, other).Some? && DecodeGoal(content, other).value.completed
  }

  lemma AcceptedConfirms(content: string, count: nat, other: OtherLiterals)
    requires RuleOn(content, count, other).Some? && RuleOn(content, count, other).value.accepted
    ensures Confirms(content, count, other)
  {
    if count > 0 {
      DecodedIsWellFormed(content, count, other);
    }
  }

  /** A completed run ends with a judge's answer that confirms it, and returns what the model proposed in that
      round without calling tools. */
  lemma CompletedIsConfirmed(count: nat, other: OtherLiterals, env: Environment, max: nat, run: Run<Answer>,
                             text: string)
    requires max > 0 && run == RunOf(CodecOf(count, other), env, max) && run.finish == Returned(CompletedAnswer(text))
    ensures run.events != [] && run.events[|run.events| - 1].JudgeAsked? && run.events[|run.events| - 1].reply.Judged?
    ensures Confirms(run.events[|run.events| - 1].reply.content, count, other)
    ensures !Blank(text) && Proposed(CodecOf(count, other), env, run.events[|run.events| - 1].round, text)
  {
    RunCompletesAccepted(CodecOf(count, other), env, max, text);
    AcceptedConfirms(run.events[|run.events| - 1].reply.content, count, other);
  }

  /** Tools run only on calls of a response in which no line declares a decision. */
  lemma ToolsAreUndeclared(count: nat, other: OtherLiterals, env: Environment, max: nat, run: Run<Answer>, i: nat)
    requires max > 0 && run == RunOf(CodecOf(count, other), env, max) && i < |run.events| && run.events[i].ToolsRun?
    ensures run.events[i].calls != []
    ensures env.model(run.events[i].round) == Response(run.events[i].calls, run.events[i].content)
    ensures !DeclaresDecision(run.events[i].content)
  {
    RunToolsUndeclared(CodecOf(count, other), env, max, i);
  }

  // ----- Decisions that the recogniser misses -----

  /** Some line, as the parser cuts them, opens a decision block. */
  predicate CarriesDecision(content: string, other: OtherLiterals) {
    exists i | 0 <= i < |Lines(content)| :: Tokenize(Lines(content)[i], other) == Open(DECISION)
  }

  lemma UpperSpells(s: string, word: string)
    requires Upper(s) == word
    ensures Spells(s, word)
  {
    assert |s| == |word|;
    forall i | 0 <= i < |word|
      ensures MatchesLetter(s[i], word[i])
    {
      assert Upper(s)[i] == UpperChar(s[i]);
    }
  }

  /** A name has no trailing blanks. */
  lemma BoundaryIsTight(line: string, keyword: string)
    requires IsBoundary(line, keyword)
    ensures DropBlanks(line) == line
  {
    var name := line[|keyword| + 1..];
    assert line[|line| - 1] == name[|name| - 1] && IsNameChar(name[|name| - 1]);
  }

  lemma OpeningIsDecisionLine(line: string, other: OtherLiterals)
    requires Tokenize(line, other) == Open(DECISION)
    ensures DecisionLine(line)
  {
    BoundaryIsTight(line, BEGIN);
    UpperSpells(line[|BEGIN| + 1..], DECISION);
  }

  // Every newline written as a carriage return and a newline
  function WithCr(s: string): string {
    if s == [] then [] else (if s[0] == '\n' then ['\r', '\n'] else [s[0]]) + WithCr(s[1..])
  }

  lemma {:induction false} WithCrReadsAlike(s: string)
    requires '\r' !in s
    ensures ReplaceCrLf(WithCr(s)) == s
  {
    if s != [] {
      var rest := WithCr(s[1..]);
      WithCrReadsAlike(s[1..]);
      assert s == [s[0]] + s[1..];
      if s[0] == '\n' {
        var all := ['\r', '\n'] + rest;
        assert all[2..] == rest;
      } else {
        var all := [s[0]] + rest;
        assert all[1..] == rest;
      }
    }
  }

  lemma {:induction false} ReplaceCrNone(s: string)
    requires '\r' !in s
    ensures ReplaceCr(s) == s
  {
    if s != [] {
      ReplaceCrNone(s[1..]);
      assert s == [s[0]] + s[1..];
    }
  }

  predicate EndsInCr(line: string) {
    line != [] && line[|line| - 1] == '\r'
  }

  predicate CrLines(lines: seq<string>) {
    lines != [] && forall i | 0 <= i < |lines| - 1 :: EndsInCr(lines[i])
  }

  lemma CrLinesGrow(c: char, lines: seq<string>)
    requires CrLines(lines)
    ensures CrLines([[c] + lines[0]] + lines[1..]) && CrLines(["\r"] + lines)
  {
  }

  /** All lines but the last end in a carriage return. */
  lemma {:induction false} WithCrLines(s: string)
    ensures CrLines(Split(WithCr(s)))
  {
    if s != [] {
      WithCrLines(s[1..]);
      var rest := WithCr(s[1..]);
      CrLinesGrow(s[0], Split(rest));
      if s[0] == '\n' {
        SplitPrefix("\r", rest);
        assert WithCr(s) == "\r" + "\n" + rest;
      } else {
        assert WithCr(s)[1..] == rest;
      }
    }
  }

  /** A document that ends its lines has nothing after the last of them. */
  lemma {:induction false} WithCrEnds(document: string)
    ensures var lines := Split(WithCr(document + "\n")); lines[|lines| - 1] == []
  {
    var text := document + "\n";
    if document == [] {
      assert text[1..] == [] && WithCr(text) == "\r" + "\n" + [];
      SplitPrefix("\r", []);
    } else {
      assert text[1..] == document[1..] + "\n";
      WithCrEnds(document[1..]);
      var rest := WithCr(text[1..]);
      if text[0] == '\n' {
        SplitPrefix("\r", rest);
        assert WithCr(text) == "\r" + "\n" + rest;
      } else {
        assert WithCr(text)[1..] == rest;
        TrailingLine(text[0], rest);
      }
    }
  }

  lemma TrailingLine(c: char, rest: string)
    requires Split(rest)[|Split(rest)| - 1] == [] && |Split(rest)| > 1
    ensures var lines := Split([c] + rest); lines[|lines| - 1] == []
  {
  }

  lemma CrIsNoDecisionLine(line: string)
    requires EndsInCr(line)
    ensures !DecisionLine(line)
  {
    assert DropBlanks(line) == line;
    if |line| > |BEGIN| + 1 {
      var name := line[|BEGIN| + 1..];
      assert name[|name| - 1] == '\r' && !MatchesLetter('\r', DECISION[|DECISION| - 1]);
    }
  }

  lemma HiddenByCr(text: string)
    requires var lines := Split(WithCr(text)); lines[|lines| - 1] == []
    ensures !DeclaresDecision(WithCr(text))
  {
    WithCrLines(text);
    var lines := Split(WithCr(text));
    forall i | 0 <= i < |lines|
      ensures !DecisionLine(lines[i])
    {
      if i < |lines| - 1 {
        CrIsNoDecisionLine(lines[i]);
      }
    }
  }

  lemma WithCrParsesAlike(text: string)
    requires '\r' !in text
    ensures Lines(WithCr(text)) == Lines(text)
  {
    WithCrReadsAlike(text);
    NoCrUnchanged(text);
    ReplaceCrNone(text);
  }

  /** Written with carriage returns, a document that ends its lines means the same to the parser, but no
      decision in it is recognised: tools then run although the response carries a decision. */
  lemma CarriageReturnsHideDecisions(document: string, other: OtherLiterals)
    requires '\r' !in document
    ensures DecodeDecision(WithCr(document + "\n"), other) == DecodeDecision(document + "\n", other)
    ensures CarriesDecision(WithCr(document + "\n"), other) == CarriesDecision(document + "\n", other)
    ensures !DeclaresDecision(WithCr(document + "\n"))
  {
    WithCrParsesAlike(document + "\n");
    WithCrEnds(document);
    HiddenByCr(document + "\n");
  }

  lemma {:induction false} SplitTerminated(d: string)
    ensures Split(d + "\n") == Split(d) + [[]]
  {
    var text := d + "\n";
    if d == [] {
      assert text[1..] == [];
    } else {
      assert text[1..] == d[1..] + "\n";
      SplitTerminated(d[1..]);
      assert Split(text[1..])[1..] == Split(d[1..])[1..] + [[]];
    }
  }

  lemma TerminatedLines(d: string)
    requires '\r' !in d && Split(d)[|Split(d)| - 1] != []
    ensures Lines(d + "\n") == Lines(d)
  {
    NoCrUnchanged(d);
    NoCrUnchanged(d + "\n");
    SplitTerminated(d);
  }

  function NeedToolNode(): Node {
    Node("REACT_DECISION", [Field("STATUS", JString("need_tool"))])
  }

  lemma NeedToolMeans()
    ensures Yield(NeedToolNode()) ==
      [Open("REACT_DECISION"), Entry("STATUS", JString("need_tool")), Close("REACT_DECISION")]
    ensures Meaning(NeedToolNode()) == Block("REACT_DECISION", map["STATUS" := [JString("need_tool")]], [])
  {
    var status := Field("STATUS", JString("need_tool"));
    FeedbackRoundTrip.OneMoreField([], status.path, status.value);
    assert [] + [status] == [status];
  }

  lemma NeedToolDecodes()
    ensures var b := Block("REACT_DECISION", map["STATUS" := [JString("need_tool")]], []);
      Admissible(b) && DecisionOf(b) == Some(NeedTool)
  {
  }

  lemma PrintableThree(n: Node, a: Token, b: Token, c: Token)
    requires Yield(n) == [a, b, c] && Printable(a) && Printable(b) && Printable(c)
    ensures PrintableNode(n)
  {
  }

  lemma DecisionNames()
    ensures IsAsciiName("REACT_DECISION")
    ensures IsPath("STATUS") && Upper("STATUS") == "STATUS"
  {
    assert IsAsciiName("STATUS");
    Canonical.AsciiNameIsPlain("STATUS");
  }

  lemma NeedToolPrints()
    ensures PrintableNode(NeedToolNode())
  {
    NeedToolMeans();
    DecisionNames();
    var t := Yield(NeedToolNode());
    PrintableThree(NeedToolNode(), t[0], t[1], t[2]);
  }

  /** A printed document has no carriage return and does not end in an empty line. */
  lemma PrintedEnds(n: Node, other: OtherLiterals)
    requires PrintableNode(n)
    ensures '\r' !in Print(n) && Split(Print(n))[|Split(Print(n))| - 1] != []
  {
    var tokens := Yield(n);
    var lines := PrintAll(tokens);
    forall i | 0 <= i < |tokens|
      ensures SingleLine(lines[i]) && lines[i] != []
    {
      TokenizePrinted(tokens[i], other);
    }
    JoinHasNoCr(lines);
    SplitJoin(lines);
  }

  /** Every decision block has a spelling that decodes to it and that the loop does not recognise. */
  lemma EveryDecisionCanHide(n: Node, decision: Decision, other: OtherLiterals)
    requires PrintableNode(n) && Admissible(Meaning(n)) && DecisionOf(Meaning(n)) == Some(decision)
    ensures var content := WithCr(Print(n) + "\n");
      DecodeDecision(content, other) == Some(decision) && !DeclaresDecision(content)
  {
    ParsePrinted(n, other);
    PrintedEnds(n, other);
    TerminatedLines(Print(n));
    CarriageReturnsHideDecisions(Print(n), other);
  }

  lemma HiddenDecision(other: OtherLiterals) returns (content: string)
    ensures DecodeDecision(content, other) == Some(NeedTool) && !DeclaresDecision(content)
  {
    NeedToolPrints();
    NeedToolMeans();
    NeedToolDecodes();
    EveryDecisionCanHide(NeedToolNode(), NeedTool, other);
    content := WithCr(Print(NeedToolNode()) + "\n");
  }
}

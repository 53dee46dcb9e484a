/** The repository's own printers and decoders undo each other. */
module FeedbackRoundTrip {
  import opened Text
  import opened Json
  import opened Tokens
  import opened LineProtocol
  import opened Parser
  import opened Decoders
  import Canonical

  // ----- Completion judgments -----

  function VerdictNode(v: Verdict): Node {
    Node("CRITERION_VERDICT", [
      Field("NUMBER", JInt(v.number)),
      Field("VERIFIED", JBool(v.verified)),
      Field(DetailField(v.verified), JString(v.detail))])
  }

  /** The items of the judgment block after `verdicts` */
  function JudgmentItems(first: Item, verdicts: seq<Verdict>): seq<Item> {
    if verdicts == [] then [first]
    else JudgmentItems(first, verdicts[..|verdicts| - 1]) + [Sub(VerdictNode(verdicts[|verdicts| - 1]))]
  }

  function JudgmentNode(j: Judgment): Node {
    Node("COMPLETION_PROGRESS", JudgmentItems(Field("ALL_COMPLETED", JBool(j.allCompleted)), j.verdicts))
  }

  /** The block that a judgment prints to */
  function JudgmentBlock(j: Judgment): Block {
    Block("COMPLETION_PROGRESS", map["ALL_COMPLETED" := [JBool(j.allCompleted)]], Blocks(j.verdicts))
  }

  /** The block that one verdict prints to */
  function VerdictBlock(v: Verdict): Block {
    Block("CRITERION_VERDICT",
          map["NUMBER" := [JInt(v.number)], "VERIFIED" := [JBool(v.verified)],
              DetailField(v.verified) := [JString(v.detail)]],
          [])
  }

  function VerdictTokens(v: Verdict): seq<Token> {
    [Open("CRITERION_VERDICT"), Entry("NUMBER", JInt(v.number)), Entry("VERIFIED", JBool(v.verified)),
     Entry(DetailField(v.verified), JString(v.detail)), Close("CRITERION_VERDICT")]
  }

  lemma OneMoreField(items: seq<Item>, path: string, value: Value)
    requires path !in FieldsOf(items)
    ensures YieldItems(items + [Field(path, value)]) == YieldItems(items) + [Entry(path, value)]
    ensures FieldsOf(items + [Field(path, value)]) == FieldsOf(items)[path := [value]]
    ensures ChildrenOf(items + [Field(path, value)]) == ChildrenOf(items)
  {
    ItemAppended(items, Field(path, value));
    assert [] + [value] == [value];
  }

  lemma ThreeFields(a: Item, b: Item, c: Item)
    requires a.Field? && b.Field? && c.Field?
    requires a.path != b.path && a.path != c.path && b.path != c.path
    ensures YieldItems([a, b, c]) == [Entry(a.path, a.value), Entry(b.path, b.value), Entry(c.path, c.value)]
    ensures FieldsOf([a, b, c]) == map[a.path := [a.value], b.path := [b.value], c.path := [c.value]]
    ensures ChildrenOf([a, b, c]) == []
  {
    OneMoreField([], a.path, a.value);
    assert [] + [a] == [a];
    OneMoreField([a], b.path, b.value);
    assert [a] + [b] == [a, b];
    OneMoreField([a, b], c.path, c.value);
    assert [a, b] + [c] == [a, b, c];
  }

  lemma VerdictNodeMeans(v: Verdict)
    ensures Yield(VerdictNode(v)) == VerdictTokens(v)
    ensures Meaning(VerdictNode(v)) == VerdictBlock(v)
  {
    var items := VerdictNode(v).items;
    assert items[0].path == "NUMBER" && items[1].path == "VERIFIED";
    assert |items[0].path| == 6 && |items[1].path| == 8 && |items[2].path| != 6 && items[2].path != "VERIFIED" by {
      assert "EVIDENCE"[0] == 'E' && "VERIFIED"[0] == 'V';
    }
    ThreeFields(items[0], items[1], items[2]);
    assert items == [items[0], items[1], items[2]];
  }

  lemma VerdictDecodes(v: Verdict, count: int)
    requires 1 <= v.number <= count && v.detail != [] && Trimmed(v.detail)
    ensures VerdictOf(VerdictBlock(v), count) == Some(v)
  {
    var b := VerdictBlock(v);
    TrimmedIsFixed(v.detail);
    assert "NUMBER" != "VERIFIED" && DetailField(v.verified) != "NUMBER" && DetailField(v.verified) != "VERIFIED" by {
      assert |"NUMBER"| == 6 && |"VERIFIED"| == 8 && "VERIFIED"[0] == 'V' && "EVIDENCE"[0] == 'E';
    }
    assert b.fields.Keys == {"NUMBER", "VERIFIED", DetailField(v.verified)};
    assert Single(b, "NUMBER") == Some(JInt(v.number)) && Single(b, "VERIFIED") == Some(JBool(v.verified));
    assert SingleText(b, DetailField(v.verified)) == Some(v.detail);
  }

  function AllTokens(verdicts: seq<Verdict>): seq<Token> {
    if verdicts == [] then []
    else AllTokens(verdicts[..|verdicts| - 1]) + VerdictTokens(verdicts[|verdicts| - 1])
  }

  function Blocks(verdicts: seq<Verdict>): seq<Block> {
    seq(|verdicts|, i requires 0 <= i < |verdicts| => VerdictBlock(verdicts[i]))
  }

  lemma BlocksAppend(verdicts: seq<Verdict>, v: Verdict, b: Block)
    requires b == VerdictBlock(v)
    ensures Blocks(verdicts + [v]) == Blocks(verdicts) + [b]
  {
  }

  /** The loop of the printer, as tokens and as a tree */
  lemma {:induction false} JudgmentItemsMean(path: string, value: Value, verdicts: seq<Verdict>)
    ensures
      var items := JudgmentItems(Field(path, value), verdicts);
      && YieldItems(items) == [Entry(path, value)] + AllTokens(verdicts)
      && FieldsOf(items) == map[path := [value]]
      && ChildrenOf(items) == Blocks(verdicts)
  {
    if verdicts == [] {
      OneMoreField([], path, value);
      assert [] + [Field(path, value)] == [Field(path, value)];
    } else {
      var front, v := verdicts[..|verdicts| - 1], verdicts[|verdicts| - 1];
      JudgmentItemsMean(path, value, front);
      var items := JudgmentItems(Field(path, value), front);
      OneMoreVerdict(items, v, VerdictNode(v), VerdictBlock(v));
      assert Blocks(verdicts) == Blocks(front) + [VerdictBlock(v)] by {
        BlocksAppend(front, v, VerdictBlock(v));
        assert front + [v] == verdicts;
      }
      assert [Entry(path, value)] + AllTokens(front) + VerdictTokens(v)
          == [Entry(path, value)] + (AllTokens(front) + VerdictTokens(v));
    }
  }

  lemma OneMoreVerdict(items: seq<Item>, v: Verdict, n: Node, b: Block)
    requires n == VerdictNode(v) && b == VerdictBlock(v)
    ensures YieldItems(items + [Sub(n)]) == YieldItems(items) + VerdictTokens(v)
    ensures FieldsOf(items + [Sub(n)]) == FieldsOf(items)
    ensures ChildrenOf(items + [Sub(n)]) == ChildrenOf(items) + [b]
  {
    assert Yield(n) == VerdictTokens(v) && Meaning(n) == b by {
      VerdictNodeMeans(v);
    }
    ItemAppended(items, Sub(n));
  }

  lemma JudgmentNodeMeans(j: Judgment)
    ensures Meaning(JudgmentNode(j)) == JudgmentBlock(j)
  {
    JudgmentItemsMean("ALL_COMPLETED", JBool(j.allCompleted), j.verdicts);
  }

  /** Every block decodes to its verdict. */
  ghost predicate DecodeEach(blocks: seq<Block>, verdicts: seq<Verdict>, count: int) {
    |blocks| == |verdicts| && forall i | 0 <= i < |blocks| :: VerdictOf(blocks[i], count) == Some(verdicts[i])
  }

  lemma DecodeFront(blocks: seq<Block>, verdicts: seq<Verdict>, count: int, n: nat)
    requires DecodeEach(blocks, verdicts, count) && n <= |verdicts|
    ensures DecodeEach(blocks[..n], verdicts[..n], count)
  {
  }

  lemma DecodeLast(blocks: seq<Block>, verdicts: seq<Verdict>, count: int, n: nat)
    requires DecodeEach(blocks, verdicts, count) && |verdicts| == n + 1
    requires VerdictsOf(blocks[..n], count) == Some(verdicts[..n])
    ensures VerdictsOf(blocks, count) == Some(verdicts)
  {
    assert verdicts[..n] + [verdicts[n]] == verdicts;
  }

  lemma {:induction false} BlocksDecode(blocks: seq<Block>, verdicts: seq<Verdict>, count: int)
    requires DecodeEach(blocks, verdicts, count)
    ensures VerdictsOf(blocks, count) == Some(verdicts)
  {
    if verdicts != [] {
      var n := |verdicts| - 1;
      DecodeFront(blocks, verdicts, count, n);
      BlocksDecode(blocks[..n], verdicts[..n], count);
      DecodeLast(blocks, verdicts, count, n);
    }
  }

  lemma JudgmentDecodes(j: Judgment, count: int)
    requires WellFormed(j, count)
    ensures JudgmentOf(JudgmentBlock(j), count) == Some(j)
  {
    assert VerdictsOf(Blocks(j.verdicts), count) == Some(j.verdicts) by {
      forall i | 0 <= i < |j.verdicts|
        ensures VerdictOf(VerdictBlock(j.verdicts[i]), count) == Some(j.verdicts[i])
      {
        VerdictDecodes(j.verdicts[i], count);
      }
      BlocksDecode(Blocks(j.verdicts), j.verdicts, count);
    }
    JudgmentFieldsDecode(j, count);
  }

  lemma JudgmentFieldsDecode(j: Judgment, count: int)
    requires WellFormed(j, count) && VerdictsOf(Blocks(j.verdicts), count) == Some(j.verdicts)
    ensures JudgmentOf(JudgmentBlock(j), count) == Some(j)
  {
    var b := JudgmentBlock(j);
    assert b.fields.Keys == {"ALL_COMPLETED"};
    assert SingleBool(b, "ALL_COMPLETED") == Some(j.allCompleted);
  }

  lemma JudgmentIsRegistered(j: Judgment)
    ensures Admissible(JudgmentBlock(j))
  {
    forall i | 0 <= i < |j.verdicts|
      ensures Registered(VerdictBlock(j.verdicts[i]), CODEC_REGISTRY)
    {
      VerdictIsRegistered(j.verdicts[i]);
    }
    assert CODEC_REGISTRY["COMPLETION_PROGRESS"]
        == Declaration({"ALL_COMPLETED", "ANSWER"}, {}, {"CRITERION_VERDICT", "COMPLETED_CRITERION"});
  }

  lemma VerdictIsRegistered(v: Verdict)
    ensures Registered(VerdictBlock(v), CODEC_REGISTRY)
  {
    assert CODEC_REGISTRY["CRITERION_VERDICT"]
        == Declaration({"NUMBER", "VERIFIED", "EVIDENCE", "GAP"}, {}, {});
  }

  // The printed lines are the canonical lines of the tokens.

  predicate IsLine(t: Token, line: string) {
    Printable(t) && PrintToken(t) == line
  }

  predicate Prints(tokens: seq<Token>, lines: seq<string>) {
    |tokens| == |lines| && forall i | 0 <= i < |tokens| :: IsLine(tokens[i], lines[i])
  }

  lemma PrintsAppend(a: seq<Token>, la: seq<string>, b: seq<Token>, lb: seq<string>)
    requires Prints(a, la) && Prints(b, lb)
    ensures Prints(a + b, la + lb)
  {
    forall i | 0 <= i < |a + b|
      ensures IsLine((a + b)[i], (la + lb)[i])
    {
      if i < |a| {
        assert IsLine(a[i], la[i]);
      } else {
        assert IsLine(b[i - |a|], lb[i - |a|]);
      }
    }
  }

  lemma PrintsOpen(typ: string, line: string)
    requires IsAsciiName(typ) && line == "BEGIN " + typ
    ensures Prints([Open(typ)], [line])
  {
  }

  lemma PrintsClose(typ: string, line: string)
    requires IsAsciiName(typ) && line == "END " + typ
    ensures Prints([Close(typ)], [line])
  {
  }

  lemma PrintsEntry(path: string, value: Value, start: string)
    requires IsAsciiName(path) && !value.JOther? && start == path + "="
    ensures Prints([Entry(path, value)], [start + Dump(value)])
  {
    Canonical.AsciiNameIsPlain(path);
  }

  lemma VerdictName()
    ensures IsAsciiName("CRITERION_VERDICT")
  {
  }

  lemma VerdictBeginPrints()
    ensures Prints([Open("CRITERION_VERDICT")], ["BEGIN CRITERION_VERDICT"])
  {
    VerdictName();
    PrintsOpen("CRITERION_VERDICT", "BEGIN CRITERION_VERDICT");
  }

  lemma VerdictEndPrints()
    ensures Prints([Close("CRITERION_VERDICT")], ["END CRITERION_VERDICT"])
  {
    VerdictName();
    PrintsClose("CRITERION_VERDICT", "END CRITERION_VERDICT");
  }

  lemma VerdictEntriesPrint(v: Verdict)
    ensures Prints([Entry("NUMBER", JInt(v.number))], ["NUMBER=" + DumpInt(v.number)])
    ensures Prints([Entry("VERIFIED", JBool(v.verified))], ["VERIFIED=" + DumpBool(v.verified)])
    ensures Prints([Entry(DetailField(v.verified), JString(v.detail))],
                   [DetailField(v.verified) + "=" + DumpString(v.detail)])
  {
    PrintsEntry("NUMBER", JInt(v.number), "NUMBER=");
    PrintsEntry("VERIFIED", JBool(v.verified), "VERIFIED=");
    PrintsEntry(DetailField(v.verified), JString(v.detail), DetailField(v.verified) + "=");
  }

  lemma VerdictPrints(v: Verdict)
    ensures Prints(VerdictTokens(v), VerdictLines(v))
  {
    VerdictBeginPrints();
    VerdictEndPrints();
    VerdictEntriesPrint(v);
    var t, l := VerdictTokens(v), VerdictLines(v);
    PrintsAppend([t[0]], [l[0]], [t[1]], [l[1]]);
    PrintsAppend([t[0]] + [t[1]], [l[0]] + [l[1]], [t[2]], [l[2]]);
    PrintsAppend([t[3]], [l[3]], [t[4]], [l[4]]);
    PrintsAppend([t[0]] + [t[1]] + [t[2]], [l[0]] + [l[1]] + [l[2]], [t[3]] + [t[4]], [l[3]] + [l[4]]);
    assert t == [t[0]] + [t[1]] + [t[2]] + ([t[3]] + [t[4]]);
    assert l == [l[0]] + [l[1]] + [l[2]] + ([l[3]] + [l[4]]);
  }

  lemma {:induction false} AllVerdictsPrint(verdicts: seq<Verdict>)
    ensures Prints(AllTokens(verdicts), AllVerdictLines(verdicts))
  {
    if verdicts != [] {
      var front, v := verdicts[..|verdicts| - 1], verdicts[|verdicts| - 1];
      AllVerdictsPrint(front);
      VerdictPrints(v);
      PrintsAppend(AllTokens(front), AllVerdictLines(front), VerdictTokens(v), VerdictLines(v));
    }
  }

  lemma JudgmentName()
    ensures IsAsciiName("COMPLETION_PROGRESS")
  {
  }

  lemma JudgmentBeginPrints()
    ensures Prints([Open("COMPLETION_PROGRESS")], ["BEGIN COMPLETION_PROGRESS"])
  {
    JudgmentName();
    PrintsOpen("COMPLETION_PROGRESS", "BEGIN COMPLETION_PROGRESS");
  }

  lemma JudgmentEndPrints()
    ensures Prints([Close("COMPLETION_PROGRESS")], ["END COMPLETION_PROGRESS"])
  {
    JudgmentName();
    PrintsClose("COMPLETION_PROGRESS", "END COMPLETION_PROGRESS");
  }

  lemma AllCompletedPrints(all: bool)
    ensures Prints([Entry("ALL_COMPLETED", JBool(all))], ["ALL_COMPLETED=" + DumpBool(all)])
  {
    PrintsEntry("ALL_COMPLETED", JBool(all), "ALL_COMPLETED=");
  }

  /** A first line, a second line, the lines in the middle and a last line */
  lemma PrintsFrame(a: Token, la: string, b: Token, lb: string, m: seq<Token>, lm: seq<string>, z: Token, lz: string)
    requires Prints([a], [la]) && Prints([b], [lb]) && Prints(m, lm) && Prints([z], [lz])
    ensures Prints([a] + ([b] + m) + [z], [la, lb] + lm + [lz])
  {
    PrintsAppend([b], [lb], m, lm);
    PrintsAppend([a], [la], [b] + m, [lb] + lm);
    PrintsAppend([a] + ([b] + m), [la] + ([lb] + lm), [z], [lz]);
    assert [la, lb] + lm == [la] + ([lb] + lm);
  }

  lemma PrintsNode(n: Node, lines: seq<string>)
    requires Prints(Yield(n), lines)
    ensures PrintableNode(n) && Print(n) == Join(lines)
  {
    assert forall i | 0 <= i < |lines| :: IsLine(Yield(n)[i], lines[i]);
    assert PrintAll(Yield(n)) == lines;
  }

  lemma FeedbackIsPrinting(j: Judgment)
    ensures PrintableNode(JudgmentNode(j)) && Print(JudgmentNode(j)) == Feedback(j)
  {
    var entry := Entry("ALL_COMPLETED", JBool(j.allCompleted));
    JudgmentBeginPrints();
    JudgmentEndPrints();
    AllCompletedPrints(j.allCompleted);
    AllVerdictsPrint(j.verdicts);
    JudgmentItemsMean("ALL_COMPLETED", JBool(j.allCompleted), j.verdicts);
    PrintsFrame(Open("COMPLETION_PROGRESS"), "BEGIN COMPLETION_PROGRESS",
                entry, "ALL_COMPLETED=" + DumpBool(j.allCompleted),
                AllTokens(j.verdicts), AllVerdictLines(j.verdicts),
                Close("COMPLETION_PROGRESS"), "END COMPLETION_PROGRESS");
    PrintsNode(JudgmentNode(j), ["BEGIN COMPLETION_PROGRESS", "ALL_COMPLETED=" + DumpBool(j.allCompleted)]
                                + AllVerdictLines(j.verdicts) + ["END COMPLETION_PROGRESS"]);
  }

  /** The judgments that decode are exactly the well-formed ones, and decoding the feedback
      printed for a judgment gives the same judgment. */
  lemma FeedbackDecodes(j: Judgment, count: int, other: OtherLiterals)
    ensures WellFormed(j, count) <==> DecodeJudgment(Feedback(j), count, other) == Some(j)
  {
    if WellFormed(j, count) {
      FeedbackIsPrinting(j);
      JudgmentIsRegistered(j);
      JudgmentNodeMeans(j);
      ParsePrinted(JudgmentNode(j), other);
      JudgmentDecodes(j, count);
    } else if DecodeJudgment(Feedback(j), count, other) == Some(j) {
      DecodedIsWellFormed(Feedback(j), count, other);
    }
  }

  lemma JudgmentRoundTrip(document: string, count: int, other: OtherLiterals)
    requires DecodeJudgment(document, count, other).Some?
    ensures var j := DecodeJudgment(document, count, other).value;
      DecodeJudgment(Feedback(j), count, other) == Some(j)
  {
    DecodedIsWellFormed(document, count, other);
    FeedbackDecodes(DecodeJudgment(document, count, other).value, count, other);
  }

  // ----- Goal judgments -----

  function GapNode(gap: string): Node {
    Node("GOAL_JUDGMENT", [Field("COMPLETED", JBool(false)), Field("GAP", JString(gap))])
  }

  lemma GapNodeMeans(gap: string)
    ensures Yield(GapNode(gap)) ==
      [Open("GOAL_JUDGMENT"), Entry("COMPLETED", JBool(false)), Entry("GAP", JString(gap)), Close("GOAL_JUDGMENT")]
    ensures Meaning(GapNode(gap)) ==
      Block("GOAL_JUDGMENT", map["COMPLETED" := [JBool(false)], "GAP" := [JString(gap)]], [])
  {
    var a, b := Field("COMPLETED", JBool(false)), Field("GAP", JString(gap));
    assert |"COMPLETED"| == 9 && |"GAP"| == 3;
    OneMoreField([], a.path, a.value);
    assert [] + [a] == [a];
    OneMoreField([a], b.path, b.value);
    assert [a] + [b] == [a, b];
  }

  lemma GapIsPrinting(gap: string)
    ensures PrintableNode(GapNode(gap)) && Print(GapNode(gap)) == GoalFeedback(gap)
  {
    GapNodeMeans(gap);
    var t := Yield(GapNode(gap));
    var l := ["BEGIN GOAL_JUDGMENT", "COMPLETED=false", "GAP=" + DumpString(gap), "END GOAL_JUDGMENT"];
    GapBoundariesPrint();
    GapLinesPrint(gap);
    PrintsAppend([t[0]], [l[0]], [t[1]], [l[1]]);
    PrintsAppend([t[2]], [l[2]], [t[3]], [l[3]]);
    PrintsAppend([t[0]] + [t[1]], [l[0]] + [l[1]], [t[2]] + [t[3]], [l[2]] + [l[3]]);
    assert t == [t[0]] + [t[1]] + ([t[2]] + [t[3]]);
    assert l == [l[0]] + [l[1]] + ([l[2]] + [l[3]]);
    PrintsNode(GapNode(gap), l);
  }

  lemma GoalJudgmentName()
    ensures IsAsciiName("GOAL_JUDGMENT")
  {
  }

  lemma GapBoundariesPrint()
    ensures Prints([Open("GOAL_JUDGMENT")], ["BEGIN GOAL_JUDGMENT"])
    ensures Prints([Close("GOAL_JUDGMENT")], ["END GOAL_JUDGMENT"])
  {
    GoalJudgmentName();
    PrintsOpen("GOAL_JUDGMENT", "BEGIN GOAL_JUDGMENT");
    PrintsClose("GOAL_JUDGMENT", "END GOAL_JUDGMENT");
  }

  lemma GapLinesPrint(gap: string)
    ensures Prints([Entry("COMPLETED", JBool(false))], ["COMPLETED=false"])
    ensures Prints([Entry("GAP", JString(gap))], ["GAP=" + DumpString(gap)])
  {
    PrintsEntry("COMPLETED", JBool(false), "COMPLETED=");
    PrintsEntry("GAP", JString(gap), "GAP=");
    assert "COMPLETED=" + "false" == "COMPLETED=false";
  }

  lemma GapIsRegistered(gap: string)
    ensures Admissible(Block("GOAL_JUDGMENT", map["COMPLETED" := [JBool(false)], "GAP" := [JString(gap)]], []))
  {
    assert CODEC_REGISTRY["GOAL_JUDGMENT"] == Declaration({"COMPLETED", "EVIDENCE", "GAP"}, {}, {});
  }

  lemma GapBlockDecodes(gap: string)
    ensures var b := Block("GOAL_JUDGMENT", map["COMPLETED" := [JBool(false)], "GAP" := [JString(gap)]], []);
      GoalVerdictOf(b) == if Blank(gap) then None else Some(GoalVerdict(false, gap))
  {
    var b := Block("GOAL_JUDGMENT", map["COMPLETED" := [JBool(false)], "GAP" := [JString(gap)]], []);
    assert |"COMPLETED"| == 9 && |"GAP"| == 3;
    assert b.fields.Keys == {"COMPLETED", "GAP"};
    assert SingleBool(b, "COMPLETED") == Some(false) && Single(b, "GAP") == Some(JString(gap));
  }

  /** The unmet-goal feedback decodes to the judgment it was printed from. */
  lemma GoalFeedbackDecodes(gap: string, other: OtherLiterals)
    ensures DecodeGoal(GoalFeedback(gap), other) == Some(GoalVerdict(false, gap)) <==> !Blank(gap)
  {
    GapIsPrinting(gap);
    GapIsRegistered(gap);
    GapNodeMeans(gap);
    ParsePrinted(GapNode(gap), other);
    GapBlockDecodes(gap);
  }
}

/** The contracts of judges and decisions, exactly: a document decodes to a value if and only if it parses to the block
    that says that value, and every value has such a document. */
module Contracts {
  import opened Text
  import opened Json
  import opened LineProtocol
  import opened Parser
  import opened Decoders
  import Canonical

  // ----- Fields -----

  lemma OneFieldIff(b: Block, x: string, v: Value)
    ensures b.fields == map[x := [v]] <==> b.fields.Keys == {x} && Single(b, x) == Some(v)
  {
    if b.fields.Keys == {x} && Single(b, x) == Some(v) {
      assert b.fields[x] == [v];
    }
  }

  lemma TwoFieldsIff(b: Block, x: string, v: Value, y: string, w: Value)
    requires x != y
    ensures b.fields == map[x := [v], y := [w]] <==>
      b.fields.Keys == {x, y} && Single(b, x) == Some(v) && Single(b, y) == Some(w)
  {
    if b.fields.Keys == {x, y} && Single(b, x) == Some(v) && Single(b, y) == Some(w) {
      assert b.fields[x] == [v] && b.fields[y] == [w];
    }
  }

  lemma ThreeFieldsIff(b: Block, x: string, u: Value, y: string, v: Value, z: string, w: Value)
    requires x != y && x != z && y != z
    ensures b.fields == map[x := [u], y := [v], z := [w]] <==>
      b.fields.Keys == {x, y, z} && Single(b, x) == Some(u) && Single(b, y) == Some(v) && Single(b, z) == Some(w)
  {
    if b.fields.Keys == {x, y, z} && Single(b, x) == Some(u) && Single(b, y) == Some(v) && Single(b, z) == Some(w) {
      assert b.fields[x] == [u] && b.fields[y] == [v] && b.fields[z] == [w];
    }
  }

  lemma SingleTextIff(b: Block, field: string, text: string)
    ensures SingleText(b, field) == Some(text) <==> Single(b, field) == Some(JString(text)) && !Blank(text)
  {
  }

  // ----- Goal judgments -----

  /** The block that says a goal judgment: its evidence when the goal is met, otherwise its gap */
  function GoalBlock(v: GoalVerdict): Block {
    Block("GOAL_JUDGMENT",
          map["COMPLETED" := [JBool(v.completed)],
              (if v.completed then "EVIDENCE" else "GAP") := [JString(v.detail)]],
          [])
  }

  lemma GoalFields(b: Block, v: GoalVerdict, detail: string)
    requires detail == DetailField(v.completed)
    ensures b.fields == GoalBlock(v).fields <==>
      && b.fields.Keys == {"COMPLETED", detail}
      && Single(b, "COMPLETED") == Some(JBool(v.completed)) && Single(b, detail) == Some(JString(v.detail))
  {
    assert "COMPLETED" != detail by {
      assert "COMPLETED"[0] == 'C' && "EVIDENCE"[0] == 'E' && "GAP"[0] == 'G';
    }
    TwoFieldsIff(b, "COMPLETED", JBool(v.completed), detail, JString(v.detail));
  }

  lemma GoalBlockIff(b: Block, v: GoalVerdict)
    ensures GoalVerdictOf(b) == Some(v) <==> b == GoalBlock(v) && !Blank(v.detail)
  {
    GoalFields(b, v, DetailField(v.completed));
    SingleTextIff(b, DetailField(v.completed), v.detail);
  }

  /** A document decodes to a goal judgment exactly when it parses to the block that says it, with a detail that is not
      blank. */
  lemma GoalIff(document: string, other: OtherLiterals, v: GoalVerdict)
    ensures DecodeGoal(document, other) == Some(v) <==>
      Parse(document, other) == Some(GoalBlock(v)) && !Blank(v.detail)
  {
    if Parse(document, other).Some? {
      GoalBlockIff(Parse(document, other).value, v);
    }
  }

  // ----- ReAct decisions -----

  /** The block that says a decision */
  function DecisionBlock(d: Decision): Block {
    Block("REACT_DECISION",
          match d
          case Completed(answer) => map["STATUS" := [JString("completed")], "ANSWER" := [JString(answer)]]
          case Failed(error) => map["STATUS" := [JString("failed")], "ERROR" := [JString(error)]]
          case NeedTool => map["STATUS" := [JString("need_tool")]],
          [])
  }

  predicate Speaks(d: Decision) {
    match d
    case Completed(answer) => !Blank(answer)
    case Failed(error) => !Blank(error)
    case NeedTool => true
  }

  lemma Statuses()
    ensures "completed" != "failed" && "completed" != "need_tool" && "failed" != "need_tool"
    ensures "STATUS" != "ANSWER" && "STATUS" != "ERROR" && "ANSWER" != "ERROR"
  {
    assert "completed"[0] == 'c' && "failed"[0] == 'f' && "need_tool"[0] == 'n';
    assert "STATUS"[0] == 'S' && "ANSWER"[0] == 'A' && "ERROR"[0] == 'E';
  }

  lemma DecisionBlockIff(b: Block, d: Decision)
    ensures DecisionOf(b) == Some(d) <==> b == DecisionBlock(d) && Speaks(d)
  {
    Statuses();
    match d
    case Completed(answer) =>
      TwoFieldsIff(b, "STATUS", JString("completed"), "ANSWER", JString(answer));
      SingleTextIff(b, "ANSWER", answer);
    case Failed(error) =>
      TwoFieldsIff(b, "STATUS", JString("failed"), "ERROR", JString(error));
      SingleTextIff(b, "ERROR", error);
    case NeedTool =>
      OneFieldIff(b, "STATUS", JString("need_tool"));
  }

  /** A document decodes to a decision exactly when it parses to the block that says it, with an answer or error that is
      not blank. */
  lemma DecisionIff(document: string, other: OtherLiterals, d: Decision)
    ensures DecodeDecision(document, other) == Some(d) <==>
      Parse(document, other) == Some(DecisionBlock(d)) && Speaks(d)
  {
    if Parse(document, other).Some? {
      DecisionBlockIff(Parse(document, other).value, d);
    }
  }

  // ----- Plan-step progress -----

  function CriterionBlock(text: string): Block {
    Block("COMPLETED_CRITERION", map["NUMBER" := [JInt(1)], "EVIDENCE" := [JString(text)]], [])
  }

  /** The block that says a step progress: the one criterion with its evidence, or none */
  function ProgressBlock(done: bool, text: string): Block {
    Block("STEP_COMPLETION_PROGRESS", map["ALL_COMPLETED" := [JBool(done)]],
          if done then [CriterionBlock(text)] else [])
  }

  lemma CriterionIff(child: Block, evidence: string)
    requires child.typ == "COMPLETED_CRITERION"
    ensures CompletedCriterionOf(child) == Some((1, evidence)) <==>
      exists text :: child == CriterionBlock(text) && !Blank(text) && Strip(text) == evidence
  {
    assert "NUMBER"[0] == 'N' && "EVIDENCE"[0] == 'E';
    forall text
      ensures child == CriterionBlock(text) && !Blank(text) <==>
        && child.children == [] && child.fields.Keys == {"NUMBER", "EVIDENCE"}
        && Single(child, "NUMBER") == Some(JInt(1)) && SingleText(child, "EVIDENCE") == Some(text)
    {
      TwoFieldsIff(child, "NUMBER", JInt(1), "EVIDENCE", JString(text));
      SingleTextIff(child, "EVIDENCE", text);
    }
    if CompletedCriterionOf(child) == Some((1, evidence)) {
      var text := SingleText(child, "EVIDENCE").value;
      assert child == CriterionBlock(text);
    }
  }

  lemma {:induction false} CriteriaCount(children: seq<Block>)
    ensures CompletedCriteriaOf(children).Some? ==> |CompletedCriteriaOf(children).value| == |children|
  {
    if children != [] {
      CriteriaCount(children[..|children| - 1]);
    }
  }

  lemma OneCriterion(children: seq<Block>, c: (int, string))
    ensures CompletedCriteriaOf(children) == Some([c]) <==>
      |children| == 1 && CompletedCriterionOf(children[0]) == Some(c)
    ensures CompletedCriteriaOf(children) == Some([]) <==> children == []
  {
    CriteriaCount(children);
    if |children| == 1 {
      var own := CompletedCriterionOf(children[0]);
      assert children[..0] == [];
      if own.Some? {
        assert [] + [own.value] == [own.value] && [own.value][0] == own.value && [c][0] == c;
      }
    }
  }

  /** The blocks that say a step progress */
  ghost predicate SaysProgress(b: Block, p: StepProgress) {
    || (p == StepProgress([], false) && b == ProgressBlock(false, ""))
    || exists text :: !Blank(text) && p == StepProgress([(1, Strip(text))], true) && b == ProgressBlock(true, text)
  }

  lemma ProgressFields(b: Block, done: bool)
    ensures b.fields == map["ALL_COMPLETED" := [JBool(done)]] <==>
      b.fields.Keys == {"ALL_COMPLETED"} && SingleBool(b, "ALL_COMPLETED") == Some(done)
  {
    OneFieldIff(b, "ALL_COMPLETED", JBool(done));
  }

  /** What the decoder tests of the block and its children */
  lemma ProgressParts(b: Block, p: StepProgress)
    ensures StepProgressOf(b) == Some(p) <==>
      && b.typ == "STEP_COMPLETION_PROGRESS" && b.fields == map["ALL_COMPLETED" := [JBool(p.allCompleted)]]
      && (forall i | 0 <= i < |b.children| :: b.children[i].typ == "COMPLETED_CRITERION")
      && CompletedCriteriaOf(b.children) == Some(p.judgments)
      && |p.judgments| <= 1 && p.allCompleted == (p.judgments != [])
  {
    ProgressFields(b, p.allCompleted);
  }

  lemma ProgressBlockIff(b: Block, p: StepProgress)
    ensures StepProgressOf(b) == Some(p) <==> SaysProgress(b, p)
  {
    ProgressParts(b, p);
    if p.judgments == [] {
      OneCriterion(b.children, (1, ""));
    } else if |p.judgments| == 1 {
      OneCriterion(b.children, p.judgments[0]);
      if |b.children| == 1 && b.children[0].typ == "COMPLETED_CRITERION" {
        CriterionIff(b.children[0], p.judgments[0].1);
      }
    }
  }

  /** A document decodes to a step progress exactly when it parses to a block that says it. */
  lemma ProgressIff(document: string, other: OtherLiterals, p: StepProgress)
    ensures DecodeStepProgress(document, other) == Some(p) <==>
      Parse(document, other).Some? && SaysProgress(Parse(document, other).value, p)
  {
    if Parse(document, other).Some? {
      ProgressBlockIff(Parse(document, other).value, p);
    }
  }

  // ----- Completion judgments -----

  /** The block that says a verdict: its evidence when it is verified, otherwise its gap */
  function VerdictBlock(number: int, verified: bool, text: string): Block {
    Block("CRITERION_VERDICT",
          map["NUMBER" := [JInt(number)], "VERIFIED" := [JBool(verified)],
              (if verified then "EVIDENCE" else "GAP") := [JString(text)]],
          [])
  }

  /** The block says the verdict, whose detail is the text of the block without the whitespace around it. */
  predicate SaysVerdict(child: Block, v: Verdict, text: string) {
    child == VerdictBlock(v.number, v.verified, text) && !Blank(text) && v.detail == Strip(text)
  }

  lemma VerdictFields(child: Block, v: Verdict, text: string, detail: string)
    requires child.typ == "CRITERION_VERDICT" && detail == DetailField(v.verified)
    ensures child == VerdictBlock(v.number, v.verified, text) <==>
      && child.children == [] && child.fields.Keys == {"NUMBER", "VERIFIED", detail}
      && Single(child, "NUMBER") == Some(JInt(v.number)) && Single(child, "VERIFIED") == Some(JBool(v.verified))
      && Single(child, detail) == Some(JString(text))
  {
    assert "NUMBER" != "VERIFIED" && "NUMBER" != detail && "VERIFIED" != detail by {
      assert "NUMBER"[0] == 'N' && "VERIFIED"[0] == 'V' && "EVIDENCE"[0] == 'E' && "GAP"[0] == 'G';
    }
    ThreeFieldsIff(child, "NUMBER", JInt(v.number), "VERIFIED", JBool(v.verified), detail, JString(text));
  }

  lemma VerdictIff(child: Block, count: int, v: Verdict)
    requires child.typ == "CRITERION_VERDICT"
    ensures VerdictOf(child, count) == Some(v) <==> 1 <= v.number <= count && exists text :: SaysVerdict(child, v, text)
  {
    var detail := DetailField(v.verified);
    forall text
      ensures SaysVerdict(child, v, text) <==>
        && child.children == [] && child.fields.Keys == {"NUMBER", "VERIFIED", detail}
        && Single(child, "NUMBER") == Some(JInt(v.number)) && Single(child, "VERIFIED") == Some(JBool(v.verified))
        && SingleText(child, detail) == Some(text) && v.detail == Strip(text)
    {
      VerdictFields(child, v, text, detail);
      SingleTextIff(child, detail, text);
    }
    if VerdictOf(child, count) == Some(v) {
      assert SaysVerdict(child, v, SingleText(child, detail).value);
    }
  }

  /** Every child says the verdict at its place, with the text at its place. */
  predicate SaysVerdicts(children: seq<Block>, verdicts: seq<Verdict>, texts: seq<string>) {
    && |children| == |verdicts| == |texts|
    && forall i | 0 <= i < |children| :: SaysVerdict(children[i], verdicts[i], texts[i])
  }

  /** The block says the judgment: its flag and its verdicts in order. */
  predicate SaysJudgment(b: Block, j: Judgment, texts: seq<string>) {
    && b.typ == "COMPLETION_PROGRESS" && b.fields == map["ALL_COMPLETED" := [JBool(j.allCompleted)]]
    && SaysVerdicts(b.children, j.verdicts, texts)
  }

  predicate AreVerdicts(children: seq<Block>) {
    forall i | 0 <= i < |children| :: children[i].typ == "CRITERION_VERDICT"
  }

  /** Whatever is decoded from the children has its numbers in range. */
  predicate InRange(verdicts: seq<Verdict>, count: int) {
    forall i | 0 <= i < |verdicts| :: 1 <= verdicts[i].number <= count
  }

  lemma VerdictsAppend(children: seq<Block>, child: Block, count: int)
    ensures VerdictsOf(children + [child], count) ==
      match (VerdictsOf(children, count), VerdictOf(child, count))
      case (Some(before), Some(v)) => Some(before + [v])
      case _ => None
  {
    assert (children + [child])[..|children|] == children;
  }

  lemma VerdictsLast(front: seq<Block>, child: Block, count: int, verdicts: seq<Verdict>)
    returns (before: seq<Verdict>, v: Verdict)
    requires VerdictsOf(front + [child], count) == Some(verdicts)
    ensures VerdictsOf(front, count) == Some(before) && VerdictOf(child, count) == Some(v) && verdicts == before + [v]
  {
    VerdictsAppend(front, child, count);
    before, v := VerdictsOf(front, count).value, VerdictOf(child, count).value;
  }

  lemma OneSaid(child: Block, count: int, v: Verdict) returns (text: string)
    requires child.typ == "CRITERION_VERDICT" && VerdictOf(child, count) == Some(v)
    ensures SaysVerdict(child, v, text) && 1 <= v.number <= count
  {
    VerdictIff(child, count, v);
    text :| SaysVerdict(child, v, text);
  }

  lemma SaysMore(children: seq<Block>, verdicts: seq<Verdict>, texts: seq<string>, child: Block, v: Verdict,
                 text: string)
    requires SaysVerdicts(children, verdicts, texts) && SaysVerdict(child, v, text)
    ensures SaysVerdicts(children + [child], verdicts + [v], texts + [text])
    ensures forall count | InRange(verdicts, count) && 1 <= v.number <= count :: InRange(verdicts + [v], count)
  {
  }

  lemma {:induction false} VerdictsSaid(children: seq<Block>, count: int, verdicts: seq<Verdict>)
    returns (texts: seq<string>)
    requires AreVerdicts(children) && VerdictsOf(children, count) == Some(verdicts)
    ensures SaysVerdicts(children, verdicts, texts) && InRange(verdicts, count)
  {
    texts := [];
    if children != [] {
      var front, child := children[..|children| - 1], children[|children| - 1];
      assert children == front + [child];
      var before, v := VerdictsLast(front, child, count, verdicts);
      var said := VerdictsSaid(front, count, before);
      var text := OneSaid(child, count, v);
      SaysMore(front, before, said, child, v, text);
      texts := said + [text];
    }
  }

  lemma SaysFewer(children: seq<Block>, verdicts: seq<Verdict>, texts: seq<string>, n: nat)
    requires SaysVerdicts(children, verdicts, texts) && n == |children| - 1
    ensures SaysVerdicts(children[..n], verdicts[..n], texts[..n]) && SaysVerdict(children[n], verdicts[n], texts[n])
  {
  }

  lemma OneReads(child: Block, count: int, v: Verdict, text: string)
    requires SaysVerdict(child, v, text) && 1 <= v.number <= count
    ensures child.typ == "CRITERION_VERDICT" && VerdictOf(child, count) == Some(v)
  {
    VerdictIff(child, count, v);
  }

  lemma {:induction false} SaidVerdicts(children: seq<Block>, count: int, verdicts: seq<Verdict>, texts: seq<string>)
    requires SaysVerdicts(children, verdicts, texts) && InRange(verdicts, count)
    ensures AreVerdicts(children) && VerdictsOf(children, count) == Some(verdicts)
  {
    if children != [] {
      var n := |children| - 1;
      var front, child := children[..n], children[n];
      assert children == front + [child];
      SaysFewer(children, verdicts, texts, n);
      SaidVerdicts(front, count, verdicts[..n], texts[..n]);
      OneReads(child, count, verdicts[n], texts[n]);
      VerdictsAppend(front, child, count);
      assert verdicts == verdicts[..n] + [verdicts[n]];
    }
  }

  /** What the decoder tests of the block */
  lemma JudgmentParts(b: Block, count: int, j: Judgment)
    ensures JudgmentOf(b, count) == Some(j) <==>
      && b.typ == "COMPLETION_PROGRESS" && b.fields == map["ALL_COMPLETED" := [JBool(j.allCompleted)]]
      && AreVerdicts(b.children) && VerdictsOf(b.children, count) == Some(j.verdicts)
      && |j.verdicts| == count && InOrder(j.verdicts) && j.allCompleted == AllVerified(j.verdicts)
  {
    ProgressFields(b, j.allCompleted);
  }

  /** A document decodes to a judgment of `count` criteria exactly when the judgment is well formed and the document
      parses to a block that says it. */
  lemma JudgmentIff(document: string, count: int, other: OtherLiterals, j: Judgment)
    ensures DecodeJudgment(document, count, other) == Some(j) <==>
      && WellFormed(j, count)
      && exists b, texts :: Parse(document, other) == Some(b) && SaysJudgment(b, j, texts)
  {
    if DecodeJudgment(document, count, other) == Some(j) {
      DecodedIsWellFormed(document, count, other);
      var b := Parse(document, other).value;
      JudgmentParts(b, count, j);
      var texts := VerdictsSaid(b.children, count, j.verdicts);
      assert SaysJudgment(b, j, texts);
    }
    forall b, texts | WellFormed(j, count) && Parse(document, other) == Some(b) && SaysJudgment(b, j, texts)
      ensures DecodeJudgment(document, count, other) == Some(j)
    {
      SaidVerdicts(b.children, count, j.verdicts, texts);
      JudgmentParts(b, count, j);
    }
  }

  // ----- Every value has a document -----

  lemma GoalIsRegistered(v: GoalVerdict)
    ensures Admissible(GoalBlock(v)) && Canonical.Concrete(GoalBlock(v))
  {
    assert CODEC_REGISTRY["GOAL_JUDGMENT"] == Declaration({"COMPLETED", "EVIDENCE", "GAP"}, {}, {});
  }

  lemma DecisionIsRegistered(d: Decision)
    ensures Admissible(DecisionBlock(d)) && Canonical.Concrete(DecisionBlock(d))
  {
    assert CODEC_REGISTRY["REACT_DECISION"] == Declaration({"STATUS", "ANSWER", "ERROR"}, {}, {});
  }

  lemma CriterionIsRegistered(text: string)
    ensures Registered(CriterionBlock(text), CODEC_REGISTRY) && Canonical.Concrete(CriterionBlock(text))
  {
    assert CODEC_REGISTRY["COMPLETED_CRITERION"] == Declaration({"NUMBER", "EVIDENCE"}, {}, {});
  }

  lemma ProgressIsRegistered(done: bool, text: string)
    ensures Admissible(ProgressBlock(done, text)) && Canonical.Concrete(ProgressBlock(done, text))
  {
    CriterionIsRegistered(text);
    assert CODEC_REGISTRY["STEP_COMPLETION_PROGRESS"] == Declaration({"ALL_COMPLETED"}, {}, {"COMPLETED_CRITERION"});
  }

  /** Every goal judgment, met or not, with a detail that is not blank has a document that decodes to it. */
  lemma GoalPrints(v: GoalVerdict, other: OtherLiterals) returns (n: Node)
    requires !Blank(v.detail)
    ensures PrintableNode(n) && DecodeGoal(Print(n), other) == Some(v)
  {
    GoalIsRegistered(v);
    n := Canonical.EveryTreePrints(GoalBlock(v), other);
    GoalIff(Print(n), other, v);
  }

  /** Every decision with an answer or error that is not blank has a document that decodes to it. */
  lemma DecisionPrints(d: Decision, other: OtherLiterals) returns (n: Node)
    requires Speaks(d)
    ensures PrintableNode(n) && DecodeDecision(Print(n), other) == Some(d)
  {
    DecisionIsRegistered(d);
    n := Canonical.EveryTreePrints(DecisionBlock(d), other);
    DecisionIff(Print(n), other, d);
  }

  /** A step progress has a document that decodes to it, with evidence that is trimmed and not empty, or with none. */
  lemma ProgressPrints(p: StepProgress, other: OtherLiterals) returns (n: Node)
    requires p == StepProgress([], false) ||
      (|p.judgments| == 1 && p.judgments[0].0 == 1 && p.judgments[0].1 != [] && Trimmed(p.judgments[0].1)
       && p.allCompleted)
    ensures PrintableNode(n) && DecodeStepProgress(Print(n), other) == Some(p)
  {
    var text := if p.allCompleted then p.judgments[0].1 else "";
    ProgressIsRegistered(p.allCompleted, text);
    n := Canonical.EveryTreePrints(ProgressBlock(p.allCompleted, text), other);
    if p.allCompleted {
      TrimmedIsFixed(text);
      assert p.judgments == [(1, Strip(text))];
    }
    ProgressIff(Print(n), other, p);
  }
}

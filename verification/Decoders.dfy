/** Decoders of the judge and decision contracts, and the printers that feed a judgment back
    to the model. */
module Decoders {
  import opened Text
  import opened Json
  import opened LineProtocol
  import opened Parser

  /** The value of a field that occurs exactly once */
  function Single(b: Block, field: string): Option<Value> {
    if field in b.fields && |b.fields[field]| == 1 then Some(b.fields[field][0]) else None
  }

  function SingleBool(b: Block, field: string): Option<bool> {
    match Single(b, field)
    case Some(JBool(flag)) => Some(flag)
    case _ => None
  }

  /** A string with something other than whitespace in it */
  function SingleText(b: Block, field: string): Option<string> {
    match Single(b, field)
    case Some(JString(text)) => if Blank(text) then None else Some(text)
    case _ => None
  }

  // ----- Completion judgments -----

  datatype Verdict = Verdict(number: int, verified: bool, detail: string)
  datatype Judgment = Judgment(verdicts: seq<Verdict>, allCompleted: bool)

  predicate AllVerified(verdicts: seq<Verdict>) {
    forall i | 0 <= i < |verdicts| :: verdicts[i].verified
  }

  /** What a judgment of `count` ordered criteria must look like */
  predicate WellFormed(j: Judgment, count: int) {
    && 0 < count == |j.verdicts|
    && (forall i | 0 <= i < |j.verdicts| ::
          j.verdicts[i].number == i + 1 && j.verdicts[i].detail != [] && Trimmed(j.verdicts[i].detail))
    && j.allCompleted == AllVerified(j.verdicts)
  }

  function DetailField(verified: bool): string {
    if verified then "EVIDENCE" else "GAP"
  }

  function VerdictOf(child: Block, count: int): Option<Verdict> {
    if child.children != [] || !(child.fields.Keys <= {"NUMBER", "VERIFIED", "EVIDENCE", "GAP"}) then None
    else
      match (Single(child, "NUMBER"), Single(child, "VERIFIED"))
      case (Some(JInt(number)), Some(JBool(verified))) =>
        if !(1 <= number <= count) || child.fields.Keys != {"NUMBER", "VERIFIED", DetailField(verified)} then None
        else (
          match SingleText(child, DetailField(verified))
          case Some(detail) => Some(Verdict(number, verified, Strip(detail)))
          case None => None
        )
      case _ => None
  }

  function VerdictsOf(children: seq<Block>, count: int): Option<seq<Verdict>> {
    if children == [] then Some([])
    else
      match (VerdictsOf(children[..|children| - 1], count), VerdictOf(children[|children| - 1], count))
      case (Some(before), Some(v)) => Some(before + [v])
      case _ => None
  }

  predicate InOrder(verdicts: seq<Verdict>) {
    forall i | 0 <= i < |verdicts| :: verdicts[i].number == i + 1
  }

  function JudgmentOf(b: Block, count: int): Option<Judgment> {
    if b.typ != "COMPLETION_PROGRESS" || b.fields.Keys != {"ALL_COMPLETED"}
       || exists i | 0 <= i < |b.children| :: b.children[i].typ != "CRITERION_VERDICT" then None
    else
      match (SingleBool(b, "ALL_COMPLETED"), VerdictsOf(b.children, count))
      case (Some(all), Some(verdicts)) =>
        if |verdicts| == count && InOrder(verdicts) && all == AllVerified(verdicts)
        then Some(Judgment(verdicts, all)) else None
      case _ => None
  }

  function DecodeJudgment(document: string, count: int, other: OtherLiterals): Option<Judgment> {
    if count <= 0 then None
    else
      match Parse(document, other)
      case Some(b) => JudgmentOf(b, count)
      case None => None
  }

  lemma {:induction false} VerdictsRejected(children: seq<Block>, count: int, i: nat)
    requires i <= |children| && VerdictsOf(children[..i], count) == None
    ensures VerdictsOf(children, count) == None
    decreases |children| - i
  {
    if i == |children| {
      assert children[..i] == children;
    } else {
      assert children[..i + 1][..i] == children[..i];
      VerdictsRejected(children, count, i + 1);
    }
  }

  /** Decode the blocks that the parser built. */
  method DecodeCompletionJudgment(document: string, count: int, other: OtherLiterals) returns (r: Option<Judgment>)
    ensures r == DecodeJudgment(document, count, other)
  {
    if count <= 0 {
      return None;
    }
    var block, view := ParseLineProtocol(document, other);
    if block == null {
      return None;
    }
    r := ReadJudgment(block, count, view);
  }

  method ReadJudgment(block: ParsedBlock, count: int, ghost view: map<ParsedBlock, Block>) returns (r: Option<Judgment>)
    requires Views(view) && block in view
    ensures r == JudgmentOf(view[block], count)
  {
    if block.typ != "COMPLETION_PROGRESS" || block.fields.Keys != {"ALL_COMPLETED"} {
      return None;
    }
    if exists i | 0 <= i < |block.children| :: block.children[i].typ != "CRITERION_VERDICT" {
      return None;
    }
    var all := SingleBool(Block(block.typ, block.fields, []), "ALL_COMPLETED");
    assert all == SingleBool(view[block], "ALL_COMPLETED");
    if all == None {
      return None;
    }
    var judgments := ReadVerdicts(block, count, view);
    if judgments == None {
      return None;
    }
    var verdicts := judgments.value;
    if |verdicts| != count || !InOrder(verdicts) || all.value != AllVerified(verdicts) {
      return None;
    }
    return Some(Judgment(verdicts, all.value));
  }

  /** The loop that collects the verdicts */
  method ReadVerdicts(block: ParsedBlock, count: int, ghost view: map<ParsedBlock, Block>)
    returns (r: Option<seq<Verdict>>)
    requires Views(view) && block in view
    ensures r == VerdictsOf(view[block].children, count)
  {
    ghost var children := view[block].children;
    var judgments: seq<Verdict> := [];
    for i := 0 to |block.children|
      invariant VerdictsOf(children[..i], count) == Some(judgments)
    {
      var child := block.children[i];
      assert children[..i + 1][..i] == children[..i] && view[child] == children[i];
      var v := ReadVerdict(child, count, view);
      if v == None {
        VerdictsRejected(children, count, i + 1);
        return None;
      }
      judgments := judgments + [v.value];
    }
    assert children[..|children|] == children;
    return Some(judgments);
  }

  /** One CRITERION_VERDICT block */
  method ReadVerdict(child: ParsedBlock, count: int, ghost view: map<ParsedBlock, Block>) returns (r: Option<Verdict>)
    requires Views(view) && child in view
    ensures r == VerdictOf(view[child], count)
  {
    if child.children != [] || !(child.fields.Keys <= {"NUMBER", "VERIFIED", "EVIDENCE", "GAP"}) {
      return None;
    }
    var fields := Block(child.typ, child.fields, []);
    assert fields == view[child];
    var number, verified := Single(fields, "NUMBER"), Single(fields, "VERIFIED");
    if number == None || verified == None || !number.value.JInt? || !(1 <= number.value.number <= count)
       || !verified.value.JBool? {
      return None;
    }
    var expected := DetailField(verified.value.flag);
    if child.fields.Keys != {"NUMBER", "VERIFIED", expected} {
      return None;
    }
    var detail := SingleText(fields, expected);
    if detail == None {
      return None;
    }
    return Some(Verdict(number.value.number, verified.value.flag, Strip(detail.value)));
  }

  lemma {:induction false} VerdictsAreTrimmed(children: seq<Block>, count: int)
    requires VerdictsOf(children, count).Some?
    ensures |VerdictsOf(children, count).value| == |children|
    ensures forall v | v in VerdictsOf(children, count).value :: v.detail != [] && Trimmed(v.detail)
  {
    if children != [] {
      VerdictsAreTrimmed(children[..|children| - 1], count);
      var v := VerdictOf(children[|children| - 1], count).value;
      var detail := SingleText(children[|children| - 1], DetailField(v.verified)).value;
      StripIsTrimmed(detail);
    }
  }

  /** Every decoded judgment is complete, ordered and consistent. */
  lemma DecodedIsWellFormed(document: string, count: int, other: OtherLiterals)
    requires DecodeJudgment(document, count, other).Some?
    ensures WellFormed(DecodeJudgment(document, count, other).value, count)
  {
    VerdictsAreTrimmed(Parse(document, other).value.children, count);
  }

  // ----- Printing a judgment -----

  function VerdictLines(v: Verdict): seq<string> {
    ["BEGIN CRITERION_VERDICT",
     "NUMBER=" + DumpInt(v.number),
     "VERIFIED=" + DumpBool(v.verified),
     DetailField(v.verified) + "=" + DumpString(v.detail),
     "END CRITERION_VERDICT"]
  }

  function AllVerdictLines(verdicts: seq<Verdict>): seq<string> {
    if verdicts == [] then []
    else AllVerdictLines(verdicts[..|verdicts| - 1]) + VerdictLines(verdicts[|verdicts| - 1])
  }

  /** The document that tells the model about a judgment */
  function Feedback(j: Judgment): string {
    Join(["BEGIN COMPLETION_PROGRESS", "ALL_COMPLETED=" + DumpBool(j.allCompleted)]
         + AllVerdictLines(j.verdicts) + ["END COMPLETION_PROGRESS"])
  }

  lemma VerdictLinesStep(verdicts: seq<Verdict>, i: nat, head: seq<string>)
    requires i < |verdicts|
    ensures head + AllVerdictLines(verdicts[..i + 1])
         == head + AllVerdictLines(verdicts[..i]) + VerdictLines(verdicts[i])
  {
    assert verdicts[..i + 1][..i] == verdicts[..i];
  }

  method CriterionJudgmentFeedback(judged: Judgment) returns (text: string)
    ensures text == Feedback(judged)
  {
    var lines := ["BEGIN COMPLETION_PROGRESS", "ALL_COMPLETED=" + DumpBool(judged.allCompleted)];
    ghost var head := lines;
    for i := 0 to |judged.verdicts|
      invariant lines == head + AllVerdictLines(judged.verdicts[..i])
    {
      VerdictLinesStep(judged.verdicts, i, head);
      lines := lines + VerdictLines(judged.verdicts[i]);
    }
    assert judged.verdicts[..|judged.verdicts|] == judged.verdicts;
    lines := lines + ["END COMPLETION_PROGRESS"];
    text := Join(lines);
  }

  // ----- Goal judgments -----

  datatype GoalVerdict = GoalVerdict(completed: bool, detail: string)

  function GoalVerdictOf(b: Block): Option<GoalVerdict> {
    if b.typ != "GOAL_JUDGMENT" || b.children != [] then None
    else
      match SingleBool(b, "COMPLETED")
      case Some(completed) =>
        if b.fields.Keys != {"COMPLETED", DetailField(completed)} then None
        else (
          match SingleText(b, DetailField(completed))
          case Some(detail) => Some(GoalVerdict(completed, detail))
          case None => None
        )
      case None => None
  }

  function DecodeGoal(document: string, other: OtherLiterals): Option<GoalVerdict> {
    match Parse(document, other)
    case Some(b) => GoalVerdictOf(b)
    case None => None
  }

  /** What the model is told about an unmet goal */
  function GoalFeedback(gap: string): string {
    Join(["BEGIN GOAL_JUDGMENT", "COMPLETED=false", "GAP=" + DumpString(gap), "END GOAL_JUDGMENT"])
  }

  // ----- Plan-step progress -----

  datatype StepProgress = StepProgress(judgments: seq<(int, string)>, allCompleted: bool)

  function CompletedCriterionOf(child: Block): Option<(int, string)> {
    if child.children != [] || child.fields.Keys != {"NUMBER", "EVIDENCE"} then None
    else
      match (Single(child, "NUMBER"), SingleText(child, "EVIDENCE"))
      case (Some(JInt(number)), Some(evidence)) => if number == 1 then Some((number, Strip(evidence))) else None
      case _ => None
  }

  function CompletedCriteriaOf(children: seq<Block>): Option<seq<(int, string)>> {
    if children == [] then Some([])
    else
      match (CompletedCriteriaOf(children[..|children| - 1]), CompletedCriterionOf(children[|children| - 1]))
      case (Some(before), Some(c)) => Some(before + [c])
      case _ => None
  }

  /** The progress contract is decoded for a criterion that is still pending. */
  function StepProgressOf(b: Block): Option<StepProgress> {
    if b.typ != "STEP_COMPLETION_PROGRESS" || b.fields.Keys != {"ALL_COMPLETED"}
       || exists i | 0 <= i < |b.children| :: b.children[i].typ != "COMPLETED_CRITERION" then None
    else
      match (SingleBool(b, "ALL_COMPLETED"), CompletedCriteriaOf(b.children))
      case (Some(all), Some(judgments)) =>
        if |judgments| > 1 then None
        else if all != (judgments != []) && !(!all && judgments == []) then None
        else Some(StepProgress(judgments, all))
      case _ => None
  }

  function DecodeStepProgress(document: string, other: OtherLiterals): Option<StepProgress> {
    match Parse(document, other)
    case Some(b) => StepProgressOf(b)
    case None => None
  }

  lemma {:induction false} CompletedCriteriaAreOne(children: seq<Block>)
    requires CompletedCriteriaOf(children).Some?
    ensures forall c | c in CompletedCriteriaOf(children).value :: c.0 == 1 && c.1 != [] && Trimmed(c.1)
  {
    if children != [] {
      CompletedCriteriaAreOne(children[..|children| - 1]);
      StripIsTrimmed(SingleText(children[|children| - 1], "EVIDENCE").value);
    }
  }

  /** A step is reported complete exactly when its one criterion is listed with evidence, so
      the first judgment can be read without a range check. */
  lemma StepProgressShape(document: string, other: OtherLiterals)
    requires DecodeStepProgress(document, other).Some?
    ensures var p := DecodeStepProgress(document, other).value;
      && p.allCompleted == (|p.judgments| == 1)
      && |p.judgments| <= 1
      && (p.allCompleted ==> p.judgments[0].0 == 1 && !Blank(p.judgments[0].1))
  {
    var children := Parse(document, other).value.children;
    CompletedCriteriaAreOne(children);
    var p := DecodeStepProgress(document, other).value;
    if p.allCompleted {
      assert p.judgments[0] in p.judgments;
      TrimmedIsFixed(p.judgments[0].1);
    }
  }

  // ----- ReAct decisions -----

  datatype Decision = Completed(answer: string) | Failed(error: string) | NeedTool

  function DecisionOf(b: Block): Option<Decision> {
    if b.typ != "REACT_DECISION" || b.children != [] then None
    else
      match Single(b, "STATUS")
      case Some(JString(status)) =>
        if status == "need_tool" && b.fields.Keys == {"STATUS"} then Some(NeedTool)
        else if status == "completed" && b.fields.Keys == {"STATUS", "ANSWER"} then (
          match SingleText(b, "ANSWER")
          case Some(answer) => Some(Completed(answer))
          case None => None
        )
        else if status == "failed" && b.fields.Keys == {"STATUS", "ERROR"} then (
          match SingleText(b, "ERROR")
          case Some(error) => Some(Failed(error))
          case None => None
        )
        else None
      case _ => None
  }

  function DecodeDecision(document: string, other: OtherLiterals): (d: Option<Decision>)
    ensures d.Some? && d.value.Completed? ==> !Blank(d.value.answer)
    ensures d.Some? && d.value.Failed? ==> !Blank(d.value.error)
  {
    match Parse(document, other)
    case Some(b) => DecisionOf(b)
    case None => None
  }
}

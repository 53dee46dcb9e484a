/** How the executor of one plan step ends, told by what it waits for: its windows, the model, the tools and the
    judge. */
module StepRuns {
  import opened Text
  import opened Json
  import opened PlanState
  import opened PlanExecute
  import Durable
  import opened Decoders
  import opened BoundedLoop
  import opened StepExecutor
  import Recording

  // ----- The judge of a candidate -----

  /** The judge's answer, or its repaired answer when the first could not be read, accepts with `evidence`. */
  predicate Accepts(rule: Rule, env: Environment, jc: nat, evidence: string) {
    && env.judge(jc).Judged?
    && (|| rule(env.judge(jc)) == Some(Some(evidence))
        || (rule(env.judge(jc)).None? && env.judge(jc + 1).Judged? && rule(env.judge(jc + 1)) == Some(Some(evidence))))
  }

  /** The answer says that the step is not complete, or cannot be read even after its repair. */
  predicate Declines(rule: Rule, env: Environment, jc: nat) {
    && env.judge(jc).Judged?
    && (|| rule(env.judge(jc)) == Some(None)
        || (rule(env.judge(jc)).None? && env.judge(jc + 1).Judged?
            && (rule(env.judge(jc + 1)) == Some(None) || rule(env.judge(jc + 1)).None?)))
  }

  /** The judge, or its repair, could not be asked. */
  predicate JudgeBreaks(rule: Rule, env: Environment, jc: nat) {
    || env.judge(jc).JudgeRaises?
    || (rule(env.judge(jc)).None? && env.judge(jc + 1).JudgeRaises?)
  }

  // ----- One round -----

  /** The window is ready and the model answers. */
  predicate Answers(env: Environment, n: nat) {
    env.ready(n) && env.model(n).Response?
  }

  predicate CallsTools(env: Environment, n: nat) {
    Answers(env, n) && env.model(n).calls != []
  }

  predicate AnswersBlank(env: Environment, n: nat) {
    Answers(env, n) && env.model(n).calls == [] && (env.model(n).text.None? || Blank(env.model(n).text.value))
  }

  predicate Proposes(env: Environment, n: nat, text: string) {
    Answers(env, n) && env.model(n).calls == [] && env.model(n).text == Some(text) && !Blank(text)
  }

  /** The judge is asked about a candidate. */
  predicate IsJudged(env: Environment, n: nat) {
    Answers(env, n) && !CallsTools(env, n) && !AnswersBlank(env, n) && env.judgeReady(n)
  }

  /** The judge requests made before round `n` */
  function JudgeCalls(rule: Rule, env: Environment, n: nat): nat {
    if n <= 1 then 0
    else
      var before := JudgeCalls(rule, env, n - 1);
      before + if !IsJudged(env, n - 1) then 0
               else if env.judge(before).Judged? && rule(env.judge(before)).None? then 2
               else 1
  }

  /** A batch that settles within the budget, or a blank answer or a candidate that is not accepted while another round
      is left */
  predicate GoesOn(rule: Rule, env: Environment, max: nat, n: nat) {
    || (CallsTools(env, n) && n <= max && env.tools(n))
    || (n < max && AnswersBlank(env, n))
    || (n < max && IsJudged(env, n) && Declines(rule, env, JudgeCalls(rule, env, n)))
  }

  /** How round `n` ends the run, given the judge requests before it */
  predicate EndsWith(rule: Rule, env: Environment, max: nat, n: nat, jc: nat, end: StepEnd) {
    match end
    case Done(text, evidence) => Proposes(env, n, text) && IsJudged(env, n) && Accepts(rule, env, jc, evidence)
    case BudgetGone =>
      || (CallsTools(env, n) && n > max)
      || (n >= max && AnswersBlank(env, n))
      || (n >= max && IsJudged(env, n) && Declines(rule, env, jc))
    case JudgeFailed => IsJudged(env, n) && JudgeBreaks(rule, env, jc)
    case StepRaised =>
      || !Answers(env, n)
      || (CallsTools(env, n) && n <= max && !env.tools(n))
      || (!CallsTools(env, n) && !AnswersBlank(env, n) && !IsJudged(env, n))
  }

  // ----- The rounds of the loop -----

  lemma RoundJudges(rule: Rule, env: Environment, max: nat, n: nat, jc: nat)
    ensures RoundOf(rule, env, max, n, jc).judged ==
      if !IsJudged(env, n) then 0 else if env.judge(jc).Judged? && rule(env.judge(jc)).None? then 2 else 1
  {
  }

  lemma RoundEndsIff(rule: Rule, env: Environment, max: nat, n: nat, jc: nat, end: StepEnd)
    ensures RoundOf(rule, env, max, n, jc).outcome == Ends(end) <==> EndsWith(rule, env, max, n, jc, end)
  {
  }

  lemma RoundGoesIff(rule: Rule, env: Environment, max: nat, n: nat)
    ensures RoundOf(rule, env, max, n, JudgeCalls(rule, env, n)).outcome.Goes? <==> GoesOn(rule, env, max, n)
  {
  }

  lemma {:induction false} JudgedBeforeIs(rule: Rule, env: Environment, max: nat, n: nat)
    ensures JudgedBefore(RoundsOf(rule, env, max), 1, 0, n) == JudgeCalls(rule, env, n)
  {
    if n > 1 {
      JudgedBeforeIs(rule, env, max, n - 1);
      RoundJudges(rule, env, max, n - 1, JudgeCalls(rule, env, n - 1));
    }
  }

  lemma RoundIs(rule: Rule, env: Environment, max: nat, n: nat, end: StepEnd)
    ensures var r := RoundAt(RoundsOf(rule, env, max), 1, 0, n);
      && (r.outcome == Ends(end) <==> EndsWith(rule, env, max, n, JudgeCalls(rule, env, n), end))
      && (r.outcome.Goes? <==> GoesOn(rule, env, max, n))
  {
    JudgedBeforeIs(rule, env, max, n);
    RoundEndsIff(rule, env, max, n, JudgeCalls(rule, env, n), end);
    RoundGoesIff(rule, env, max, n);
  }

  // ----- Whole runs -----

  /** All rounds before `m` go on. */
  predicate Reaches(rule: Rule, env: Environment, max: nat, m: nat) {
    forall k: nat | 1 <= k < m :: GoesOn(rule, env, max, k)
  }

  /** The executor ends a step in a certain way exactly when some round of the budget, or the one request after it, is
      reached and ends so. */
  lemma RunEndsIff(rule: Rule, env: Environment, max: nat, end: StepEnd)
    requires max > 0
    ensures RunOf(rule, env, max).finish == Returned(end) <==>
      exists m: nat | 1 <= m <= max + 1 ::
        Reaches(rule, env, max, m) && EndsWith(rule, env, max, m, JudgeCalls(rule, env, m), end)
  {
    var rounds := RoundsOf(rule, env, max);
    forall m: nat
      ensures var r := RoundAt(rounds, 1, 0, m);
        && (r.outcome == Ends(end) <==> EndsWith(rule, env, max, m, JudgeCalls(rule, env, m), end))
        && (r.outcome.Goes? <==> GoesOn(rule, env, max, m))
    {
      RoundIs(rule, env, max, m, end);
    }
    ReturnsIff(rounds, max + 1, [], end);
    assert forall m: nat :: GetsTo(rounds, m) <==> Reaches(rule, env, max, m);
  }

  lemma OneJudgment(p: StepProgress, evidence: string)
    requires p.allCompleted == (|p.judgments| == 1) && |p.judgments| <= 1
    requires p.allCompleted ==> p.judgments[0].0 == 1
    ensures p.allCompleted && p.judgments[0].1 == evidence <==> p == StepProgress([(1, evidence)], true)
    ensures !p.allCompleted <==> p == StepProgress([], false)
  {
    if p.allCompleted {
      assert p.judgments == [p.judgments[0]];
    }
  }

  lemma EvidenceIs(content: string, other: OtherLiterals, evidence: string)
    ensures EvidenceIn(content, other) == Some(Some(evidence)) <==>
      DecodeStepProgress(content, other) == Some(StepProgress([(1, evidence)], true))
    ensures EvidenceIn(content, other) == Some(None) <==>
      DecodeStepProgress(content, other) == Some(StepProgress([], false))
  {
    var progress := DecodeStepProgress(content, other);
    if progress.Some? {
      StepProgressShape(content, other);
      OneJudgment(progress.value, evidence);
    }
  }

  /** How the judge's answers are read: a progress document without tool calls accepts with the evidence that it lists
      for the one criterion, and declines when it lists none. */
  lemma ProgressIsRead(other: OtherLiterals, r: JudgeReply, evidence: string)
    ensures ProgressRule(other)(r) == Some(Some(evidence)) <==>
      r.Judged? && !r.calls && DecodeStepProgress(r.content, other) == Some(StepProgress([(1, evidence)], true))
    ensures ProgressRule(other)(r) == Some(None) <==>
      r.Judged? && !r.calls && DecodeStepProgress(r.content, other) == Some(StepProgress([], false))
  {
    if r.Judged? {
      EvidenceIs(r.content, other, evidence);
    }
  }

  // ----- What is recorded of a step -----

  /** What the executor reports for a step tells how its run ended. */
  lemma ReportIs(end: StepEnd, key: Key, durable: bool)
    requires 1 <= key.0 <= 3 && !Blank(key.1) && (end.Done? ==> !Blank(end.evidence))
    ensures CompleteStep(end, key, durable) ==
      match end
      case Done(text, evidence) => Executed(Outcome(true, Some(text), None, Some(evidence), NO_UPDATE))
      case BudgetGone => Executed(Outcome(false, None, Some("tool round budget exhausted"), None, NO_UPDATE))
      case JudgeFailed => Executed(Outcome(false, None, Some("completion judge failed"), None, NO_UPDATE))
      case StepRaised =>
        if durable then ExecRaises else Executed(Outcome(false, None, Some("execution failed"), None, NO_UPDATE))
  {
  }

  lemma RecordedKeyIsValid(s: AgentState, key: Key)
    requires ValidState(s) && Find(s.executions, key).Some?
    ensures 1 <= key.0 <= 3 && !Blank(key.1)
  {
    FindFinds(s.executions, key);
    var i :| 0 <= i < |s.executions| && s.executions[i] == Find(s.executions, key).value;
    assert Placed(s.plans, s.executions[i]);
  }

  /** When the i-th executor call of a run ends with an accepted candidate, the end state holds its step as completed,
      with the accepted text as its result and the judge's evidence. */
  lemma AcceptedTextIsRecorded(s: AgentState, pc: nat, ec: nat, planner: Planner, executor: Executor, run: Trace,
                               i: nat, other: OtherLiterals, env: Environment, max: nat, durable: bool, end: StepEnd)
    requires ValidState(s) && run == PlanExecute.RunFrom(s, pc, ec, planner, executor) && !run.ending.RaisedRun?
    requires i < |run.stepCalls| && max > 0
    requires RunOf(ProgressRule(other), env, max).finish == Returned(end) && end.Done?
    requires executor(ec + i) == CompleteStep(end, run.stepCalls[i], durable)
    ensures var key := run.stepCalls[i];
      Find(run.ending.state.executions, key)
      == Some(StepExecution(key.0, key.1, PlanState.Completed, Some(end.text), None, Some(end.evidence)))
  {
    Recording.RunRecords(s, pc, ec, planner, executor, run);
    assert Recording.Recorded(run, ec, executor, i);
    Durable.EndingIs(s, pc, ec, planner, executor);
    RecordedKeyIsValid(run.ending.state, run.stepCalls[i]);
    DoneCompletes(other, env, max, run.stepCalls[i], durable);
  }
}

/** Executing one plan step: tool rounds under a budget, a judge for every candidate, and the outcome for the plan. */
module StepExecutor {
  import opened Text
  import opened Json
  import opened PlanState
  import opened PlanExecute
  import Durable
  import Decoders
  import opened BoundedLoop

  datatype Reply = ModelRaises | Response(calls: seq<string>, text: Option<string>)

  /** What the executor waits for, by request number, and the judge's answers by their own number */
  datatype Environment = Environment(
    ready: nat -> bool, model: nat -> Reply, tools: nat -> bool, judgeReady: nat -> bool, judge: nat -> JudgeReply)

  /** None when the judge's answer cannot be read; otherwise the evidence of a completed step, if any */
  type Rule = JudgeReply -> Option<Option<string>>

  datatype StepEnd = Done(text: string, evidence: string) | BudgetGone | JudgeFailed | StepRaised

  predicate Candidate(r: Reply) {
    r.Response? && r.calls == [] && r.text.Some? && !Blank(r.text.value)
  }

  // ----- One round -----

  function Rejected(max: nat, n: nat): Result<StepEnd> {
    if n >= max then Ends(BudgetGone) else Goes([])
  }

  function CandidateRound(rule: Rule, env: Environment, max: nat, n: nat, jc: nat, text: string): Round<StepEnd> {
    if !env.judgeReady(n) then Round(Ends(StepRaised), [Asked(n)], 0)
    else
      var j := JudgeWithRepair(rule, env.judge, n, jc);
      var outcome :=
        if j.raised then Ends(JudgeFailed)
        else if j.ruling.Some? && j.ruling.value.Some? then Ends(Done(text, j.ruling.value.value))
        else Rejected(max, n);
      Round(outcome, [Asked(n)] + j.events, |j.events|)
  }

  /** Round `n` follows `n - 1` rounds; one request more than the budget is made, but it may not run tools. */
  function RoundOf(rule: Rule, env: Environment, max: nat, n: nat, jc: nat): Round<StepEnd> {
    if !env.ready(n) then Round(Ends(StepRaised), [], 0)
    else
      match env.model(n)
      case ModelRaises => Round(Ends(StepRaised), [Asked(n)], 0)
      case Response(calls, text) =>
        if calls != [] then
          if n > max then Round(Ends(BudgetGone), [Asked(n)], 0)
          else Round(if env.tools(n) then Goes([]) else Ends(StepRaised), [Asked(n), ToolsRun(n, calls, "")], 0)
        else if Candidate(env.model(n)) then CandidateRound(rule, env, max, n, jc, text.value)
        else Round(Rejected(max, n), [Asked(n)], 0)
  }

  function RoundsOf(rule: Rule, env: Environment, max: nat): Rounds<StepEnd> {
    (n: nat, jc: nat) => RoundOf(rule, env, max, n, jc)
  }

  function RunOf(rule: Rule, env: Environment, max: nat): Run<StepEnd> {
    BoundedLoop.RunFrom(RoundsOf(rule, env, max), max + 1, 1, 0, [])
  }

  // ----- The loop -----

  /** One pass through the loop body after `rounds` rounds */
  method PlayRound(rule: Rule, env: Environment, max: nat, rounds: nat, jc: nat) returns (round: Round<StepEnd>)
    ensures round == RoundsOf(rule, env, max)(rounds + 1, jc)
    ensures round.outcome.Goes? ==> rounds < max && round.outcome.verdicts == []
  {
    var n := rounds + 1;
    if !env.ready(n) {
      return Round(Ends(StepRaised), [], 0);
    }
    var response, events := env.model(n), [Asked(n)];
    if response.ModelRaises? {
      return Round(Ends(StepRaised), events, 0);
    }
    if response.calls != [] {
      if rounds >= max {
        return Round(Ends(BudgetGone), events, 0);
      }
      events := events + [ToolsRun(n, response.calls, "")];
      if !env.tools(n) {
        return Round(Ends(StepRaised), events, 0);
      }
      return Round(Goes([]), events, 0);
    }
    var judged := 0;
    if response.text.Some? && !Blank(response.text.value) {
      if !env.judgeReady(n) {
        return Round(Ends(StepRaised), events, 0);
      }
      var j := AskJudge(rule, env.judge, n, jc);
      events, judged := events + j.events, |j.events|;
      if j.raised {
        return Round(Ends(JudgeFailed), events, judged);
      }
      if j.ruling.Some? && j.ruling.value.Some? {
        return Round(Ends(Done(response.text.value, j.ruling.value.value)), events, judged);
      }
    }
    if rounds + 1 >= max {
      return Round(Ends(BudgetGone), events, judged);
    }
    round := Round(Goes([]), events, judged);
  }

  method ExecuteWithTools(rule: Rule, env: Environment, max: nat) returns (run: Run<StepEnd>)
    requires max > 0
    ensures run == RunOf(rule, env, max)
  {
    ghost var all := RoundsOf(rule, env, max);
    ghost var whole := RunOf(rule, env, max);
    PlayStarts(all, max + 1, 1, 0, []);
    var rounds: nat, jc: nat, events := 0, 0, [];
    while true
      invariant rounds <= max
      invariant Playing(all, whole, events, max + 1, rounds + 1, jc, [])
      decreases max - rounds
    {
      var round := PlayRound(rule, env, max, rounds, jc);
      var over, judged, _, seen := TakeRound(round, max + 1, rounds + 1, jc, [], events, all, whole);
      if over.Some? {
        return over.value;
      }
      rounds, jc, events := rounds + 1, judged, seen;
    }
  }

  // ----- The rounds of this loop -----

  lemma LastRoundEnds(rule: Rule, env: Environment, max: nat, n: nat, jc: nat)
    requires n > max
    ensures RoundOf(rule, env, max, n, jc).outcome.Ends?
    ensures ToolBatches(RoundOf(rule, env, max, n, jc).events) == 0
  {
    var events := RoundOf(rule, env, max, n, jc).events;
    if |events| == 3 {
      assert events == [events[0]] + [events[1]] + [events[2]];
      RequestsAdd([events[0]] + [events[1]], [events[2]]);
      RequestsAdd([events[0]], [events[1]]);
    } else if |events| == 2 {
      assert events == [events[0]] + [events[1]];
      RequestsAdd([events[0]], [events[1]]);
    }
  }

  function Readable(rule: Rule): JudgeReply -> bool {
    (r: JudgeReply) => rule(r).Some?
  }

  lemma RoundIsShaped(rule: Rule, env: Environment, max: nat, n: nat, jc: nat)
    ensures RoundShape(Readable(rule), RoundOf(rule, env, max, n, jc).events)
    ensures InRounds(RoundOf(rule, env, max, n, jc).events, n, n)
  {
  }

  lemma RoundsAre(rule: Rule, env: Environment, max: nat)
    ensures Shaped(Readable(rule), RoundsOf(rule, env, max)) && Separate(RoundsOf(rule, env, max))
    ensures ToolFreeAfter(RoundsOf(rule, env, max), max)
    ensures forall m: nat, j: nat | max < m :: RoundsOf(rule, env, max)(m, j).outcome.Ends?
  {
    forall n: nat, jc: nat
      ensures RoundShape(Readable(rule), RoundsOf(rule, env, max)(n, jc).events)
      ensures InRounds(RoundsOf(rule, env, max)(n, jc).events, n, n)
      ensures n > max ==> RoundsOf(rule, env, max)(n, jc).outcome.Ends?
      ensures n > max ==> ToolFree(RoundsOf(rule, env, max)(n, jc).events)
    {
      RoundIsShaped(rule, env, max, n, jc);
      if n > max {
        LastRoundEnds(rule, env, max, n, jc);
      }
    }
  }

  /** Request `n` answered with `text` and no calls, and the last event is a judge accepting it with `evidence`. */
  predicate Accepted(rule: Rule, env: Environment, events: seq<Event>, text: string, evidence: string) {
    && events != []
    && events[|events| - 1].JudgeAsked? && events[|events| - 1].reply.Judged?
    && rule(events[|events| - 1].reply) == Some(Some(evidence))
    && Candidate(env.model(events[|events| - 1].round))
    && env.model(events[|events| - 1].round).text == Some(text)
  }

  lemma RoundIsSound(rule: Rule, env: Environment, max: nat, n: nat, jc: nat, text: string, evidence: string)
    requires RoundOf(rule, env, max, n, jc).outcome == Ends(Done(text, evidence))
    ensures Accepted(rule, env, RoundOf(rule, env, max, n, jc).events, text, evidence)
  {
  }

  // ----- Whole runs -----

  /** At most one request more than the budget and never more tool batches than the budget; at most two judge
      requests per candidate, the second only for an answer that could not be read. */
  lemma RunBounds(rule: Rule, env: Environment, max: nat, r: nat)
    requires max > 0
    ensures var events := RunOf(rule, env, max).events;
      ModelRequests(events) <= max + 1 && ToolBatches(events) <= max
    ensures RoundShape(Readable(rule), OfRound(RunOf(rule, env, max).events, r))
    ensures RunOf(rule, env, max).finish.Returned?
  {
    RoundsAre(rule, env, max);
    var rounds := RoundsOf(rule, env, max);
    RunIsBounded(Readable(rule), rounds, max + 1, 1, 0, []);
    ToolsAreBounded(Readable(rule), rounds, max, max + 1, 1, 0, []);
    LastRoundReturns(rounds, max + 1, 1, 0, []);
    EveryRoundHasShape(Readable(rule), rounds, max + 1, 1, 0, [], r);
  }

  lemma DoneIsAccepted(rule: Rule, env: Environment, max: nat, text: string, evidence: string)
    requires max > 0 && RunOf(rule, env, max).finish == Returned(Done(text, evidence))
    ensures Accepted(rule, env, RunOf(rule, env, max).events, text, evidence)
  {
    var m, jc := AnswersComeFromRounds(RoundsOf(rule, env, max), max + 1, 1, 0, []);
    RoundIsSound(rule, env, max, m, jc, text, evidence);
    var events, last := RunOf(rule, env, max).events, RoundOf(rule, env, max, m, jc).events;
    assert events[|events| - |last|..][|last| - 1] == events[|events| - 1];
  }

  // ----- The outcome for the plan -----

  const BUDGET_ERROR := "tool round budget exhausted"
  const JUDGE_ERROR := "completion judge failed"
  const EXECUTION_ERROR := "execution failed"
  const NO_UPDATE := ContextUpdate([], [], [])

  function FailedOutcome(error: string): ExecReply {
    Executed(Outcome(false, None, Some(error), None, NO_UPDATE))
  }

  /** A checkpointed executor passes its own failures on, others report them as a failed step. */
  function Raised(durable: bool): ExecReply {
    if durable then ExecRaises else FailedOutcome(EXECUTION_ERROR)
  }

  /** The final handoff; an outcome that its constructor refuses counts as the executor's own failure. */
  function CompleteStep(end: StepEnd, key: Key, durable: bool): ExecReply {
    match end
    case Done(text, evidence) =>
      var o := Outcome(true, Some(text), None, Some(evidence), NO_UPDATE);
      if ValidExecution(Execution(key, o)) then Executed(o) else Raised(durable)
    case BudgetGone => FailedOutcome(BUDGET_ERROR)
    case JudgeFailed => FailedOutcome(JUDGE_ERROR)
    case StepRaised => Raised(durable)
  }

  method Execute(rule: Rule, env: Environment, max: nat, key: Key, durable: bool) returns (reply: ExecReply)
    requires max > 0
    ensures RunOf(rule, env, max).finish.Returned?
    ensures reply == CompleteStep(RunOf(rule, env, max).finish.answer, key, durable)
  {
    RunBounds(rule, env, max, 0);
    var run := ExecuteWithTools(rule, env, max);
    reply := CompleteStep(run.finish.answer, key, durable);
  }

  /** The judge's answers as the progress contract reads them: no tool calls, and the evidence of the first
      judgment, which is always there when the step is reported complete */
  function ProgressRule(other: OtherLiterals): Rule {
    (r: JudgeReply) => if r.JudgeRaises? || r.calls then None else EvidenceIn(r.content, other)
  }

  function EvidenceIn(content: string, other: OtherLiterals): (e: Option<Option<string>>)
    ensures e.Some? && e.value.Some? ==> !Blank(e.value.value)
    ensures e == Some(None) <==>
      Decoders.DecodeStepProgress(content, other).Some?
      && Decoders.DecodeStepProgress(content, other).value.judgments == []
  {
    var progress := Decoders.DecodeStepProgress(content, other);
    if progress.None? then None
    else
      Decoders.StepProgressShape(content, other);
      Some(if progress.value.allCompleted then Some(progress.value.judgments[0].1) else None)
  }

  /** A step is completed only by a judge's evidence for the very text it hands over, and its outcome meets the
      invariants of every execution. */
  lemma OutcomeIsSound(other: OtherLiterals, env: Environment, max: nat, key: Key, durable: bool, o: Outcome)
    requires max > 0 && 1 <= key.0 <= 3 && !Blank(key.1)
    requires RunOf(ProgressRule(other), env, max).finish.Returned?
    requires CompleteStep(RunOf(ProgressRule(other), env, max).finish.answer, key, durable) == Executed(o)
    ensures ValidExecution(Execution(key, o))
    ensures o.completed ==>
      && o.result.Some? && !Blank(o.result.value) && o.evidence.Some? && !Blank(o.evidence.value) && o.error.None?
      && Accepted(ProgressRule(other), env, RunOf(ProgressRule(other), env, max).events, o.result.value,
                  o.evidence.value)
    ensures !o.completed ==> o.result.None? && o.error.Some? && o.evidence.None?
  {
    if o.completed {
      DoneIsAccepted(ProgressRule(other), env, max, o.result.value, o.evidence.value);
    }
  }

  /** An accepted candidate always becomes a completed outcome. */
  lemma DoneCompletes(other: OtherLiterals, env: Environment, max: nat, key: Key, durable: bool)
    requires max > 0 && 1 <= key.0 <= 3 && !Blank(key.1)
    requires var finish := RunOf(ProgressRule(other), env, max).finish; finish.Returned? && finish.answer.Done?
    ensures var end := RunOf(ProgressRule(other), env, max).finish.answer;
      CompleteStep(end, key, durable) == Executed(Outcome(true, Some(end.text), None, Some(end.evidence), NO_UPDATE))
  {
    var end := RunOf(ProgressRule(other), env, max).finish.answer;
    DoneIsAccepted(ProgressRule(other), env, max, end.text, end.evidence);
  }

  /** Whatever the executor reports for the next step of a plan can be recorded. */
  lemma OutcomeIsRecorded(s: AgentState, other: OtherLiterals, env: Environment, max: nat, key: Key, durable: bool,
                          o: Outcome)
    requires max > 0 && ValidState(s) && NextStep(s) == Some(key)
    requires RunOf(ProgressRule(other), env, max).finish.Returned?
    requires CompleteStep(RunOf(ProgressRule(other), env, max).finish.answer, key, durable) == Executed(o)
    ensures WithExecution(s, Execution(key, o)).Some?
  {
    Durable.NextStepIsPlanned(s);
    OutcomeIsSound(other, env, max, key, durable, o);
    PutIsValid(s, Execution(key, o));
  }
}

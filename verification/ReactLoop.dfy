/** The bounded ReAct loop: tool rounds, decisions, and the judge that has to accept an answer. */
module ReactLoop {
  import opened Text
  import opened Decoders
  import opened BoundedLoop

  datatype Reply = ModelRaises | Response(calls: seq<string>, content: string)

  /** What the loop waits for: per round, whether its window and its judge's window are ready, what the model
      answers and whether the tool batch is run and recorded; and the judge's answers by request number */
  datatype Environment = Environment(
    ready: nat -> bool, model: nat -> Reply, tools: nat -> bool, judgeReady: nat -> bool, judge: nat -> JudgeReply)

  datatype Ruling = Ruling(accepted: bool, verdicts: seq<Verdict>)

  /** How texts are read: as decisions, as plain answers, as attempts at a decision, and as rulings */
  datatype Codec = Codec(
    decide: string -> Option<Decision>, plain: string -> bool, declares: string -> bool,
    rule: JudgeReply -> Option<Ruling>)

  datatype Answer = CompletedAnswer(text: string) | Declared(error: string) | ExecutionFailed

  /** The answer's own constructor refuses blank texts, which ends the run as failed. */
  function Constructed(a: Answer): Answer {
    match a
    case CompletedAnswer(text) => if Blank(text) then ExecutionFailed else a
    case Declared(error) => if Blank(error) then ExecutionFailed else a
    case ExecutionFailed => a
  }

  /** What a response without tool calls proposes */
  function Proposal(c: Codec, content: string): Option<Decision> {
    if c.decide(content).Some? then c.decide(content)
    else if c.plain(content) then Some(Completed(content))
    else None
  }

  // ----- One round -----

  function CandidateRound(c: Codec, env: Environment, n: nat, jc: nat, text: string): Round<Answer> {
    if !env.judgeReady(n) then Round(Ends(ExecutionFailed), [Asked(n)], 0)
    else
      var j := JudgeWithRepair(c.rule, env.judge, n, jc);
      var outcome :=
        if j.raised then Ends(ExecutionFailed)
        else if j.ruling.None? then Goes([])
        else if j.ruling.value.accepted then Ends(Constructed(CompletedAnswer(text)))
        else Goes(j.ruling.value.verdicts);
      Round(outcome, [Asked(n)] + j.events, |j.events|)
  }

  function RoundOf(c: Codec, env: Environment, n: nat, jc: nat): Round<Answer> {
    if !env.ready(n) then Round(Ends(ExecutionFailed), [], 0)
    else
      match env.model(n)
      case ModelRaises => Round(Ends(ExecutionFailed), [Asked(n)], 0)
      case Response(calls, content) =>
        if calls != [] then
          if c.declares(content) then Round(Goes([]), [Asked(n)], 0)
          else
            Round(if env.tools(n) then Goes([]) else Ends(ExecutionFailed),
                  [Asked(n), ToolsRun(n, calls, content)], 0)
        else
          match Proposal(c, content)
          case None => Round(Goes([]), [Asked(n)], 0)
          case Some(NeedTool) => Round(Goes([]), [Asked(n)], 0)
          case Some(Failed(error)) => Round(Ends(Constructed(Declared(error))), [Asked(n)], 0)
          case Some(Completed(text)) => CandidateRound(c, env, n, jc, text)
  }

  function RoundsOf(c: Codec, env: Environment): Rounds<Answer> {
    (n: nat, jc: nat) => RoundOf(c, env, n, jc)
  }

  /** The whole run; the verdicts that are no longer needed stay in its evidence. */
  function RunOf(c: Codec, env: Environment, max: nat): Run<Answer> {
    RunFrom(RoundsOf(c, env), max, 1, 0, [])
  }

  // ----- The loop -----

  /** One pass through the loop body */
  method PlayRound(c: Codec, env: Environment, n: nat, jc: nat) returns (round: Round<Answer>)
    ensures round == RoundsOf(c, env)(n, jc)
  {
    if !env.ready(n) {
      return Round(Ends(ExecutionFailed), [], 0);
    }
    var response, events := env.model(n), [Asked(n)];
    if response.ModelRaises? {
      return Round(Ends(ExecutionFailed), events, 0);
    }
    if response.calls != [] {
      if c.declares(response.content) {
        return Round(Goes([]), events, 0);
      }
      events := events + [ToolsRun(n, response.calls, response.content)];
      if !env.tools(n) {
        return Round(Ends(ExecutionFailed), events, 0);
      }
      return Round(Goes([]), events, 0);
    }
    var decision := c.decide(response.content);
    if decision.None? {
      if !c.plain(response.content) {
        return Round(Goes([]), events, 0);
      }
      decision := Some(Completed(response.content));
    }
    match decision.value {
      case Failed(error) => return Round(Ends(Constructed(Declared(error))), events, 0);
      case NeedTool => return Round(Goes([]), events, 0);
      case Completed(text) =>
        if !env.judgeReady(n) {
          return Round(Ends(ExecutionFailed), events, 0);
        }
        var j := AskJudge(c.rule, env.judge, n, jc);
        events := events + j.events;
        if j.raised {
          return Round(Ends(ExecutionFailed), events, |j.events|);
        }
        if j.ruling.None? {
          return Round(Goes([]), events, |j.events|);
        }
        if j.ruling.value.accepted {
          return Round(Ends(Constructed(CompletedAnswer(text))), events, |j.events|);
        }
        return Round(Goes(j.ruling.value.verdicts), events, |j.events|);
    }
  }

  method PlayFrom(c: Codec, env: Environment, max: nat, first: nat, jc0: nat, start: Evidence)
    returns (run: Run<Answer>)
    requires first <= max
    ensures run == RunFrom(RoundsOf(c, env), max, first, jc0, start)
  {
    ghost var rounds := RoundsOf(c, env);
    ghost var whole := RunFrom(rounds, max, first, jc0, start);
    PlayStarts(rounds, max, first, jc0, start);
    var n, jc, evidence, events := first, jc0, start, [];
    while n <= max
      invariant n <= max + 1
      invariant Playing(rounds, whole, events, max, n, jc, evidence)
    {
      var round := PlayRound(c, env, n, jc);
      var over, judged, next, seen := TakeRound(round, max, n, jc, evidence, events, rounds, whole);
      if over.Some? {
        return over.value;
      }
      n, jc, evidence, events := n + 1, judged, next, seen;
    }
    PlayOver(rounds, whole, events, max, n, jc, evidence);
    run := Run(AfterLoop, events, evidence);
  }

  method Play(c: Codec, env: Environment, max: nat) returns (run: Run<Answer>)
    requires max > 0
    ensures run == RunOf(c, env, max)
  {
    run := PlayFrom(c, env, max, 1, 0, []);
  }

  // ----- The rounds of this loop -----

  function Readable(c: Codec): JudgeReply -> bool {
    (r: JudgeReply) => c.rule(r).Some?
  }

  lemma RoundIsShaped(c: Codec, env: Environment, n: nat, jc: nat)
    ensures RoundShape(Readable(c), RoundOf(c, env, n, jc).events)
    ensures InRounds(RoundOf(c, env, n, jc).events, n, n)
  {
  }

  lemma RoundsAre(c: Codec, env: Environment)
    ensures Shaped(Readable(c), RoundsOf(c, env)) && Separate(RoundsOf(c, env))
  {
    forall n: nat, jc: nat
      ensures RoundShape(Readable(c), RoundsOf(c, env)(n, jc).events)
      ensures InRounds(RoundsOf(c, env)(n, jc).events, n, n)
    {
      RoundIsShaped(c, env, n, jc);
    }
  }

  /** The last event is a judge's answer that accepts. */
  predicate AcceptedLast(c: Codec, events: seq<Event>) {
    && events != []
    && events[|events| - 1].JudgeAsked? && events[|events| - 1].reply.Judged?
    && c.rule(events[|events| - 1].reply).Some?
    && c.rule(events[|events| - 1].reply).value.accepted
  }

  /** `text` is what the model proposed in round `n`, in a response without tool calls. */
  predicate Proposed(c: Codec, env: Environment, n: nat, text: string) {
    && env.model(n).Response? && env.model(n).calls == []
    && Proposal(c, env.model(n).content) == Some(Completed(text))
  }

  /** `events` end with the acceptance of `text`, which the model proposed in that round. */
  predicate AcceptedText(c: Codec, env: Environment, events: seq<Event>, text: string) {
    !Blank(text) && AcceptedLast(c, events) && Proposed(c, env, events[|events| - 1].round, text)
  }

  lemma RoundIsSound(c: Codec, env: Environment, n: nat, jc: nat, text: string)
    requires RoundOf(c, env, n, jc).outcome == Ends(CompletedAnswer(text))
    ensures AcceptedText(c, env, RoundOf(c, env, n, jc).events, text)
  {
  }

  /** Tools only run on the calls of a response that does not declare a decision. */
  predicate Undeclared(c: Codec, env: Environment, e: Event) {
    e.ToolsRun? ==> e.calls != [] && env.model(e.round) == Response(e.calls, e.content) && !c.declares(e.content)
  }

  lemma RoundRunsUndeclared(c: Codec, env: Environment, n: nat, jc: nat, e: Event)
    requires e in RoundOf(c, env, n, jc).events
    ensures Undeclared(c, env, e)
  {
  }

  /** This judge's answer verified the criterion with this detail. */
  predicate VerifiedBy(c: Codec, e: Event, number: int, detail: string) {
    && e.JudgeAsked? && e.reply.Judged? && c.rule(e.reply).Some?
    && Verdict(number, true, detail) in c.rule(e.reply).value.verdicts
  }

  lemma RoundIsAttested(c: Codec, env: Environment, n: nat, jc: nat, number: int, detail: string)
    requires RoundOf(c, env, n, jc).outcome.Goes?
    requires Verdict(number, true, detail) in RoundOf(c, env, n, jc).outcome.verdicts
    ensures exists e | e in RoundOf(c, env, n, jc).events :: VerifiedBy(c, e, number, detail)
  {
    var events := RoundOf(c, env, n, jc).events;
    assert VerifiedBy(c, events[|events| - 1], number, detail);
  }

  // ----- Whole runs -----

  /** A completed answer is not blank, it is what the model proposed in the last round, and the last thing
      that happened was a judge accepting it. */
  lemma RunCompletesAccepted(c: Codec, env: Environment, max: nat, text: string)
    requires max > 0 && RunOf(c, env, max).finish == Returned(CompletedAnswer(text))
    ensures AcceptedText(c, env, RunOf(c, env, max).events, text)
  {
    var m, jc := AnswersComeFromRounds(RoundsOf(c, env), max, 1, 0, []);
    RoundIsSound(c, env, m, jc, text);
    var events, last := RunOf(c, env, max).events, RoundOf(c, env, m, jc).events;
    assert events[|events| - |last|..][|last| - 1] == events[|events| - 1];
  }

  /** At most one model request and one tool batch per round and at most `max` in all, at most two judge
      requests per round, the second only for an answer that could not be read; and the loop returns from
      inside. */
  lemma RunBounds(c: Codec, env: Environment, max: nat, r: nat)
    requires max > 0
    ensures ModelRequests(RunOf(c, env, max).events) <= max && ToolBatches(RunOf(c, env, max).events) <= max
    ensures var events := OfRound(RunOf(c, env, max).events, r);
      RoundShape(Readable(c), events) && ModelRequests(events) + JudgeRequests(events) <= 3
    ensures RunOf(c, env, max).finish != AfterLoop
  {
    RoundsAre(c, env);
    RunIsBounded(Readable(c), RoundsOf(c, env), max, 1, 0, []);
    EveryRoundHasShape(Readable(c), RoundsOf(c, env), max, 1, 0, [], r);
    RoundIsBounded(Readable(c), OfRound(RunOf(c, env, max).events, r));
  }

  lemma RunToolsUndeclared(c: Codec, env: Environment, max: nat, i: nat)
    requires max > 0 && i < |RunOf(c, env, max).events|
    ensures Undeclared(c, env, RunOf(c, env, max).events[i])
  {
    var m, jc := EventsComeFromRounds(RoundsOf(c, env), max, 1, 0, [], i);
    RoundRunsUndeclared(c, env, m, jc, RunOf(c, env, max).events[i]);
  }

  /** The loop remembers nothing as evidence but what some judge's answer of the run verified. */
  lemma RunRemembersVerified(c: Codec, env: Environment, max: nat, number: int, detail: string)
    requires max > 0 && Holds(RunOf(c, env, max).evidence, number, detail)
    ensures exists e | e in RunOf(c, env, max).events :: VerifiedBy(c, e, number, detail)
  {
    var m, jc := EvidenceComesFromRounds(RoundsOf(c, env), max, 1, 0, [], number, detail);
    RoundIsAttested(c, env, m, jc, number, detail);
  }
}

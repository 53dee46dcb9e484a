/** How a run of the ReAct loop ends, told by what it waits for: its windows, the model, the tools and the judge. */
module ReactRuns {
  import opened Text
  import opened Json
  import opened Decoders
  import opened BoundedLoop
  import opened ReactLoop
  import opened ReactProtocol

  // ----- The judge of a proposal -----

  /** The judge's answer, when it can be read, or else its repaired answer verifies the detail. */
  predicate Verifies(c: Codec, env: Environment, jc: nat, v: Verdict) {
    && v.verified && env.judge(jc).Judged?
    && if c.rule(env.judge(jc)).Some? then v in c.rule(env.judge(jc)).value.verdicts
       else env.judge(jc + 1).Judged? && c.rule(env.judge(jc + 1)).Some?
            && v in c.rule(env.judge(jc + 1)).value.verdicts
  }

  predicate Accepts(c: Codec, env: Environment, jc: nat) {
    && env.judge(jc).Judged?
    && if c.rule(env.judge(jc)).Some? then c.rule(env.judge(jc)).value.accepted
       else env.judge(jc + 1).Judged? && c.rule(env.judge(jc + 1)).Some? && c.rule(env.judge(jc + 1)).value.accepted
  }

  /** The judge, or its repair, could not be asked. */
  predicate JudgeBreaks(c: Codec, env: Environment, jc: nat) {
    env.judge(jc).JudgeRaises? || (c.rule(env.judge(jc)).None? && env.judge(jc + 1).JudgeRaises?)
  }

  // ----- One round -----

  /** The window is ready and the model answers. */
  predicate Answers(env: Environment, n: nat) {
    env.ready(n) && env.model(n).Response?
  }

  predicate CallsTools(env: Environment, n: nat) {
    Answers(env, n) && env.model(n).calls != []
  }

  /** A decision, or without one a plain answer, proposes `text`. */
  predicate Proposes(c: Codec, env: Environment, n: nat, text: string) {
    && Answers(env, n) && env.model(n).calls == []
    && var content := env.model(n).content;
    (c.decide(content) == Some(Completed(text)) || (c.decide(content).None? && c.plain(content) && text == content))
  }

  predicate Gives(c: Codec, env: Environment, n: nat, error: string) {
    Answers(env, n) && env.model(n).calls == [] && c.decide(env.model(n).content) == Some(Failed(error))
  }

  /** Neither calls nor an answer: the model asks for another round, or cannot be understood. */
  predicate SaysNothing(c: Codec, env: Environment, n: nat) {
    && Answers(env, n) && env.model(n).calls == []
    && var content := env.model(n).content;
    c.decide(content) == Some(NeedTool) || (c.decide(content).None? && !c.plain(content))
  }

  predicate HasProposal(c: Codec, env: Environment, n: nat) {
    && Answers(env, n) && env.model(n).calls == []
    && var content := env.model(n).content;
    (c.decide(content).Some? && c.decide(content).value.Completed?) || (c.decide(content).None? && c.plain(content))
  }

  predicate IsJudged(c: Codec, env: Environment, n: nat) {
    HasProposal(c, env, n) && env.judgeReady(n)
  }

  /** The judge requests made before round `n` */
  function JudgeCalls(c: Codec, env: Environment, n: nat): nat {
    if n <= 1 then 0
    else
      var before := JudgeCalls(c, env, n - 1);
      before + if !IsJudged(c, env, n - 1) then 0
               else if env.judge(before).Judged? && c.rule(env.judge(before)).None? then 2
               else 1
  }

  /** Calls that come with a declared decision and are not run, or that run well; nothing said; or a proposal that the
      judge answered without accepting it */
  predicate GoesOn(c: Codec, env: Environment, n: nat, jc: nat) {
    || (CallsTools(env, n) && (c.declares(env.model(n).content) || env.tools(n)))
    || SaysNothing(c, env, n)
    || (IsJudged(c, env, n) && !JudgeBreaks(c, env, jc) && !Accepts(c, env, jc))
  }

  /** How round `n` ends the run, given the judge requests before it */
  ghost predicate EndsWith(c: Codec, env: Environment, n: nat, jc: nat, answer: Answer) {
    match answer
    case CompletedAnswer(text) =>
      Proposes(c, env, n, text) && !Blank(text) && env.judgeReady(n) && Accepts(c, env, jc)
    case Declared(error) => Gives(c, env, n, error) && !Blank(error)
    case ExecutionFailed =>
      || !Answers(env, n)
      || (CallsTools(env, n) && !c.declares(env.model(n).content) && !env.tools(n))
      || (HasProposal(c, env, n) && (!env.judgeReady(n) || JudgeBreaks(c, env, jc)))
      || (HasProposal(c, env, n) && Accepts(c, env, jc) && exists text :: Proposes(c, env, n, text) && Blank(text))
      || exists error :: Gives(c, env, n, error) && Blank(error)
  }

  // ----- The rounds of the loop -----

  lemma RoundJudges(c: Codec, env: Environment, n: nat, jc: nat)
    ensures RoundOf(c, env, n, jc).judged ==
      if !IsJudged(c, env, n) then 0 else if env.judge(jc).Judged? && c.rule(env.judge(jc)).None? then 2 else 1
  {
  }

  lemma RoundGoesIff(c: Codec, env: Environment, n: nat, jc: nat)
    ensures RoundOf(c, env, n, jc).outcome.Goes? <==> GoesOn(c, env, n, jc)
  {
  }

  lemma RoundEndsIff(c: Codec, env: Environment, n: nat, jc: nat, answer: Answer)
    ensures RoundOf(c, env, n, jc).outcome == Ends(answer) <==> EndsWith(c, env, n, jc, answer)
  {
    if HasProposal(c, env, n) {
      var text := Proposal(c, env.model(n).content).value.answer;
      assert Proposes(c, env, n, text);
    }
    if Answers(env, n) && env.model(n).calls == [] {
      match c.decide(env.model(n).content)
      case Some(Failed(error)) => assert Gives(c, env, n, error);
      case _ =>
    }
  }

  lemma {:induction false} JudgedBeforeIs(c: Codec, env: Environment, n: nat)
    ensures JudgedBefore(RoundsOf(c, env), 1, 0, n) == JudgeCalls(c, env, n)
  {
    if n > 1 {
      JudgedBeforeIs(c, env, n - 1);
      RoundJudges(c, env, n - 1, JudgeCalls(c, env, n - 1));
    }
  }

  lemma RoundIs(c: Codec, env: Environment, n: nat, answer: Answer)
    ensures var r := RoundAt(RoundsOf(c, env), 1, 0, n);
      && (r.outcome == Ends(answer) <==> EndsWith(c, env, n, JudgeCalls(c, env, n), answer))
      && (r.outcome.Goes? <==> GoesOn(c, env, n, JudgeCalls(c, env, n)))
  {
    JudgedBeforeIs(c, env, n);
    RoundEndsIff(c, env, n, JudgeCalls(c, env, n), answer);
    RoundGoesIff(c, env, n, JudgeCalls(c, env, n));
  }

  // ----- Whole runs -----

  /** All rounds before `m` go on. */
  ghost predicate Reaches(c: Codec, env: Environment, m: nat) {
    forall k: nat | 1 <= k < m :: GoesOn(c, env, k, JudgeCalls(c, env, k))
  }

  /** A run ends with an answer exactly when some round of the budget is reached and ends so; it runs out of rounds
      exactly when all of them go on. */
  lemma RunEndsIff(c: Codec, env: Environment, max: nat, answer: Answer)
    requires max > 0
    ensures RunOf(c, env, max).finish == Returned(answer) <==>
      exists m: nat | 1 <= m <= max :: Reaches(c, env, m) && EndsWith(c, env, m, JudgeCalls(c, env, m), answer)
    ensures RunOf(c, env, max).finish == OutOfRounds <==> Reaches(c, env, max + 1)
  {
    var rounds := RoundsOf(c, env);
    forall m: nat
      ensures var r := RoundAt(rounds, 1, 0, m);
        && (r.outcome == Ends(answer) <==> EndsWith(c, env, m, JudgeCalls(c, env, m), answer))
        && (r.outcome.Goes? <==> GoesOn(c, env, m, JudgeCalls(c, env, m)))
    {
      RoundIs(c, env, m, answer);
    }
    ReturnsIff(rounds, max, [], answer);
    assert forall m: nat :: GetsTo(rounds, m) <==> Reaches(c, env, m);
  }

  lemma RoundTells(c: Codec, env: Environment, n: nat, jc: nat, v: Verdict)
    requires v.verified && GoesOn(c, env, n, jc)
    ensures RoundOf(c, env, n, jc).outcome.Goes?
    ensures v in RoundOf(c, env, n, jc).outcome.verdicts <==> IsJudged(c, env, n) && Verifies(c, env, jc, v)
  {
  }

  /** A detail is remembered exactly when the judge verified it in some round of the budget that was reached and went
      on. */
  lemma RunRemembersIff(c: Codec, env: Environment, max: nat, v: Verdict)
    requires max > 0 && v.verified
    ensures v in RunOf(c, env, max).evidence <==>
      exists m: nat | 1 <= m <= max ::
        Reaches(c, env, m + 1) && IsJudged(c, env, m) && Verifies(c, env, JudgeCalls(c, env, m), v)
  {
    var rounds := RoundsOf(c, env);
    RemembersIff(rounds, max, 1, 0, [], v);
    forall m: nat | 1 <= m
      ensures TellsAt(rounds, 1, 0, m, v) <==>
        Reaches(c, env, m + 1) && IsJudged(c, env, m) && Verifies(c, env, JudgeCalls(c, env, m), v)
    {
      TellsIff(c, env, m, v);
    }
  }

  lemma TellsIff(c: Codec, env: Environment, m: nat, v: Verdict)
    requires 1 <= m && v.verified
    ensures TellsAt(RoundsOf(c, env), 1, 0, m, v) <==>
      Reaches(c, env, m + 1) && IsJudged(c, env, m) && Verifies(c, env, JudgeCalls(c, env, m), v)
  {
    forall k: nat
      ensures RoundAt(RoundsOf(c, env), 1, 0, k).outcome.Goes? <==> GoesOn(c, env, k, JudgeCalls(c, env, k))
    {
      RoundIs(c, env, k, ExecutionFailed);
    }
    JudgedBeforeIs(c, env, m);
    if GoesOn(c, env, m, JudgeCalls(c, env, m)) {
      RoundTells(c, env, m, JudgeCalls(c, env, m), v);
    }
  }

  // ----- The protocol's judge -----

  /** With criteria the judge's answer is read as a judgment of all of them, otherwise as one of the whole goal.  It
      accepts exactly when it confirms them, and its verdicts are those of the judgment. */
  lemma RulingIs(count: nat, other: OtherLiterals, r: JudgeReply)
    ensures r.JudgeRaises? ==> CodecOf(count, other).rule(r).None?
    ensures r.Judged? ==>
      (CodecOf(count, other).rule(r).Some? <==>
       if count > 0 then DecodeJudgment(r.content, count, other).Some? else DecodeGoal(r.content, other).Some?)
    ensures CodecOf(count, other).rule(r).Some? ==>
      (CodecOf(count, other).rule(r).value.accepted <==> Confirms(r.content, count, other))
    ensures CodecOf(count, other).rule(r).Some? ==>
      CodecOf(count, other).rule(r).value.verdicts
      == if count > 0 then DecodeJudgment(r.content, count, other).value.verdicts else []
  {
    if r.Judged? && count > 0 && DecodeJudgment(r.content, count, other).Some? {
      DecodedIsWellFormed(r.content, count, other);
    }
  }
}

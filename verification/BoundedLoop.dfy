/** Rounds under a budget: what the ReAct loop and the step executor have in common. */
module BoundedLoop {
  import opened Text
  import opened Decoders

  datatype JudgeReply = JudgeRaises | Judged(calls: bool, content: string)

  datatype Event =
    | Asked(round: nat)
    | ToolsRun(round: nat, calls: seq<string>, content: string)
    | JudgeAsked(round: nat, reply: JudgeReply)

  /** What a round leaves: an answer, or verdicts to remember while the loop goes on */
  datatype Result<+A> = Ends(answer: A) | Goes(verdicts: seq<Verdict>)

  /** `judged` counts the judge requests among the events. */
  datatype Round<+A> = Round(outcome: Result<A>, events: seq<Event>, judged: nat)

  /** A round by its number and by the number of judge requests before it */
  type Rounds<!A> = (nat, nat) -> Round<A>

  /** Confirmed verdicts, oldest first; the details of one criterion appear in the order of their confirmation. */
  type Evidence = seq<Verdict>

  function Remember(evidence: Evidence, verdicts: seq<Verdict>): Evidence {
    if verdicts == [] then evidence
    else
      var before, v := Remember(evidence, verdicts[..|verdicts| - 1]), verdicts[|verdicts| - 1];
      if v.verified then before + [v] else before
  }

  datatype Finish<+A> = Returned(answer: A) | OutOfRounds | AfterLoop
  datatype Run<+A> = Run(finish: Finish<A>, events: seq<Event>, evidence: Evidence)

  function Before<A>(events: seq<Event>, rest: Run<A>): Run<A> {
    rest.(events := events + rest.events)
  }

  function RunFrom<A>(rounds: Rounds<A>, max: nat, n: nat, jc: nat, evidence: Evidence): Run<A>
    decreases max + 1 - n
  {
    if n > max then Run(AfterLoop, [], evidence)
    else
      var r := rounds(n, jc);
      match r.outcome
      case Ends(answer) => Run(Returned(answer), r.events, evidence)
      case Goes(verdicts) =>
        var next := Remember(evidence, verdicts);
        if n == max then Run(OutOfRounds, r.events, next)
        else Before(r.events, RunFrom(rounds, max, n + 1, jc + r.judged, next))
  }

  method RememberVerdicts(evidence: Evidence, verdicts: seq<Verdict>) returns (updated: Evidence)
    ensures updated == Remember(evidence, verdicts)
  {
    updated := evidence;
    for i := 0 to |verdicts|
      invariant updated == Remember(evidence, verdicts[..i])
    {
      assert verdicts[..i + 1][..i] == verdicts[..i];
      if verdicts[i].verified {
        updated := updated + [verdicts[i]];
      }
    }
    assert verdicts[..|verdicts|] == verdicts;
  }

  // ----- A judge that is asked to repair at most once -----

  /** A ruling, or None when neither the judge's answer nor its repaired answer can be read */
  datatype Judging<+R> = Judging(raised: bool, ruling: Option<R>, events: seq<Event>)

  function JudgeOnce<R>(rule: JudgeReply -> Option<R>, reply: JudgeReply, n: nat): Judging<R> {
    Judging(reply.JudgeRaises?, if reply.JudgeRaises? then None else rule(reply), [JudgeAsked(n, reply)])
  }

  function JudgeWithRepair<R>(rule: JudgeReply -> Option<R>, judge: nat -> JudgeReply, n: nat, jc: nat): Judging<R> {
    var first := JudgeOnce(rule, judge(jc), n);
    if first.raised || first.ruling.Some? then first
    else
      var second := JudgeOnce(rule, judge(jc + 1), n);
      second.(events := first.events + second.events)
  }

  /** The judge answered, and its answer could not be read. */
  predicate Unreadable<R>(rule: JudgeReply -> Option<R>, reply: JudgeReply) {
    !reply.JudgeRaises? && rule(reply).None?
  }

  /** The judge is asked once, and once more exactly when its first answer came but could not be read; what is
      made of it is what the last answer says. */
  method AskJudge<R>(rule: JudgeReply -> Option<R>, judge: nat -> JudgeReply, n: nat, jc: nat) returns (j: Judging<R>)
    ensures 1 <= |j.events| <= 2 && forall k: nat | k < |j.events| :: j.events[k] == JudgeAsked(n, judge(jc + k))
    ensures |j.events| == 2 <==> Unreadable(rule, judge(jc))
    ensures var last := j.events[|j.events| - 1].reply;
      j.raised == last.JudgeRaises? && j.ruling == if last.JudgeRaises? then None else rule(last)
    ensures j.ruling.None? <==>
      || judge(jc).JudgeRaises?
      || (Unreadable(rule, judge(jc)) && (judge(jc + 1).JudgeRaises? || Unreadable(rule, judge(jc + 1))))
    ensures j == JudgeWithRepair(rule, judge, n, jc)
  {
    var judged := judge(jc);
    if judged.JudgeRaises? {
      return Judging(true, None, [JudgeAsked(n, judged)]);
    }
    var ruling := rule(judged);
    if ruling.Some? {
      return Judging(false, ruling, [JudgeAsked(n, judged)]);
    }
    var repaired := judge(jc + 1);
    var events := [JudgeAsked(n, judged), JudgeAsked(n, repaired)];
    if repaired.JudgeRaises? {
      return Judging(true, None, events);
    }
    j := Judging(false, rule(repaired), events);
  }

  // ----- Counting -----

  function ModelRequests(events: seq<Event>): nat {
    if events == [] then 0 else ModelRequests(events[..|events| - 1]) + if events[|events| - 1].Asked? then 1 else 0
  }

  function JudgeRequests(events: seq<Event>): nat {
    if events == [] then 0
    else JudgeRequests(events[..|events| - 1]) + if events[|events| - 1].JudgeAsked? then 1 else 0
  }

  function ToolBatches(events: seq<Event>): nat {
    if events == [] then 0 else ToolBatches(events[..|events| - 1]) + if events[|events| - 1].ToolsRun? then 1 else 0
  }

  lemma {:induction false} RequestsAdd(a: seq<Event>, b: seq<Event>)
    ensures ModelRequests(a + b) == ModelRequests(a) + ModelRequests(b)
    ensures JudgeRequests(a + b) == JudgeRequests(a) + JudgeRequests(b)
    ensures ToolBatches(a + b) == ToolBatches(a) + ToolBatches(b)
  {
    if b == [] {
      assert a + b == a;
    } else {
      assert (a + b)[..|a + b| - 1] == a + b[..|b| - 1];
      RequestsAdd(a, b[..|b| - 1]);
    }
  }

  /** The events of round `r` */
  function OfRound(events: seq<Event>, r: nat): seq<Event> {
    if events == [] then []
    else OfRound(events[..|events| - 1], r) + if events[|events| - 1].round == r then [events[|events| - 1]] else []
  }

  lemma {:induction false} OfRoundAdd(a: seq<Event>, b: seq<Event>, r: nat)
    ensures OfRound(a + b, r) == OfRound(a, r) + OfRound(b, r)
  {
    if b == [] {
      assert a + b == a && OfRound(a, r) + [] == OfRound(a, r);
    } else {
      assert (a + b)[..|a + b| - 1] == a + b[..|b| - 1];
      OfRoundAdd(a, b[..|b| - 1], r);
    }
  }

  lemma {:induction false} OfRoundAll(events: seq<Event>, r: nat)
    requires forall i | 0 <= i < |events| :: events[i].round == r
    ensures OfRound(events, r) == events
  {
    if events != [] {
      OfRoundAll(events[..|events| - 1], r);
    }
  }

  lemma {:induction false} OfRoundNone(events: seq<Event>, r: nat)
    requires forall i | 0 <= i < |events| :: events[i].round != r
    ensures OfRound(events, r) == []
  {
    if events != [] {
      OfRoundNone(events[..|events| - 1], r);
    }
  }

  // ----- Shapes of rounds -----

  /** At most one model request, then either one tool batch or at most two judge requests, the second exactly
      when the first was answered and the answer could not be read */
  predicate RoundShape(readable: JudgeReply -> bool, events: seq<Event>) {
    || events == []
    || (events[0].Asked? &&
        (|| |events| == 1
         || (|events| == 2 && events[1].ToolsRun?)
         || (|events| == 2 && events[1].JudgeAsked? && (events[1].reply.JudgeRaises? || readable(events[1].reply)))
         || (|events| == 3 && events[1].JudgeAsked? && events[2].JudgeAsked?
             && events[1].reply.Judged? && !readable(events[1].reply))))
  }

  lemma RoundIsBounded(readable: JudgeReply -> bool, events: seq<Event>)
    requires RoundShape(readable, events)
    ensures ModelRequests(events) <= 1 && JudgeRequests(events) <= 2 && ToolBatches(events) <= 1
    ensures ModelRequests(events) + JudgeRequests(events) <= 3
  {
    if |events| == 3 {
      assert events == [events[0]] + [events[1]] + [events[2]];
      RequestsAdd([events[0]] + [events[1]], [events[2]]);
      RequestsAdd([events[0]], [events[1]]);
    } else if |events| == 2 {
      assert events == [events[0]] + [events[1]];
      RequestsAdd([events[0]], [events[1]]);
    }
  }

  predicate InRounds(events: seq<Event>, lo: nat, hi: nat) {
    forall i | 0 <= i < |events| :: lo <= events[i].round <= hi
  }

  ghost predicate Shaped<A(!new)>(readable: JudgeReply -> bool, rounds: Rounds<A>) {
    forall n: nat, jc: nat :: RoundShape(readable, rounds(n, jc).events)
  }

  /** Every round has only its own events. */
  ghost predicate Separate<A(!new)>(rounds: Rounds<A>) {
    forall n: nat, jc: nat :: InRounds(rounds(n, jc).events, n, n)
  }

  // ----- Bounds over a whole run -----

  lemma {:induction false} RunStaysInRounds<A(!new)>(rounds: Rounds<A>, max: nat, n: nat, jc: nat, evidence: Evidence)
    requires n <= max && Separate(rounds)
    ensures InRounds(RunFrom(rounds, max, n, jc, evidence).events, n, max)
    decreases max - n
  {
    var r := rounds(n, jc);
    assert InRounds(r.events, n, n);
    if r.outcome.Goes? && n < max {
      RunStaysInRounds(rounds, max, n + 1, jc + r.judged, Remember(evidence, r.outcome.verdicts));
    }
  }

  /** The loop makes at most one model request and one tool batch per round of the budget, and it always
      returns from inside. */
  lemma {:induction false} RunIsBounded<A(!new)>(readable: JudgeReply -> bool, rounds: Rounds<A>, max: nat, n: nat,
                                                 jc: nat, evidence: Evidence)
    requires n <= max && Shaped(readable, rounds)
    ensures ModelRequests(RunFrom(rounds, max, n, jc, evidence).events) <= max + 1 - n
    ensures ToolBatches(RunFrom(rounds, max, n, jc, evidence).events) <= max + 1 - n
    ensures RunFrom(rounds, max, n, jc, evidence).finish != AfterLoop
    decreases max - n
  {
    var r := rounds(n, jc);
    RoundIsBounded(readable, r.events);
    if r.outcome.Goes? && n < max {
      var next := Remember(evidence, r.outcome.verdicts);
      RunIsBounded(readable, rounds, max, n + 1, jc + r.judged, next);
      RequestsAdd(r.events, RunFrom(rounds, max, n + 1, jc + r.judged, next).events);
    }
  }

  ghost predicate ToolFreeAfter<A(!new)>(rounds: Rounds<A>, tools: nat) {
    forall m: nat, j: nat | tools < m :: ToolFree(rounds(m, j).events)
  }

  predicate ToolFree(events: seq<Event>) {
    ToolBatches(events) == 0
  }

  lemma BatchesAdd(a: seq<Event>, b: seq<Event>, n: nat, m: nat)
    requires ToolBatches(a) <= n && ToolBatches(b) <= m
    ensures ToolBatches(a + b) <= n + m
  {
    RequestsAdd(a, b);
  }

  /** When only the rounds up to `tools` run tools, the run has no more batches than those rounds. */
  lemma {:induction false} ToolsAreBounded<A(!new)>(readable: JudgeReply -> bool, rounds: Rounds<A>, tools: nat,
                                                    max: nat, n: nat, jc: nat, evidence: Evidence)
    requires n <= max && Shaped(readable, rounds) && ToolFreeAfter(rounds, tools)
    ensures ToolBatches(RunFrom(rounds, max, n, jc, evidence).events) <= if n <= tools then tools + 1 - n else 0
    decreases max - n
  {
    var r := rounds(n, jc);
    var here := if n <= tools then 1 else 0;
    assert ToolBatches(r.events) <= here by {
      RoundIsBounded(readable, r.events);
      assert tools < n ==> ToolFree(r.events);
    }
    if r.outcome.Goes? && n < max {
      var rest := RunFrom(rounds, max, n + 1, jc + r.judged, Remember(evidence, r.outcome.verdicts)).events;
      var later := if n + 1 <= tools then tools - n else 0;
      assert ToolBatches(rest) <= later by {
        ToolsAreBounded(readable, rounds, tools, max, n + 1, jc + r.judged, Remember(evidence, r.outcome.verdicts));
      }
      BatchesAdd(r.events, rest, here, later);
    }
  }

  /** When the last round never goes on, the run returns an answer. */
  lemma {:induction false} LastRoundReturns<A(!new)>(rounds: Rounds<A>, max: nat, n: nat, jc: nat, evidence: Evidence)
    requires n <= max && forall j: nat :: rounds(max, j).outcome.Ends?
    ensures RunFrom(rounds, max, n, jc, evidence).finish.Returned?
    decreases max - n
  {
    var r := rounds(n, jc);
    if n < max && r.outcome.Goes? {
      LastRoundReturns(rounds, max, n + 1, jc + r.judged, Remember(evidence, r.outcome.verdicts));
    }
  }

  lemma FirstRoundOf(events: seq<Event>, more: seq<Event>, n: nat, max: nat, r: nat)
    requires InRounds(events, n, n) && InRounds(more, n + 1, max)
    ensures OfRound(events + more, r) == if r == n then events else OfRound(more, r)
  {
    OfRoundAdd(events, more, r);
    if r == n {
      OfRoundAll(events, r);
      OfRoundNone(more, r);
      assert events + [] == events;
    } else {
      OfRoundNone(events, r);
      assert [] + OfRound(more, r) == OfRound(more, r);
    }
  }

  /** The events of a run after its first round */
  function RestOf<A>(rounds: Rounds<A>, max: nat, n: nat, jc: nat, evidence: Evidence): seq<Event> {
    var r := rounds(n, jc);
    if r.outcome.Goes? && n < max then
      RunFrom(rounds, max, n + 1, jc + r.judged, Remember(evidence, r.outcome.verdicts)).events
    else []
  }

  lemma RunEvents<A>(rounds: Rounds<A>, max: nat, n: nat, jc: nat, evidence: Evidence)
    requires n <= max
    ensures RunFrom(rounds, max, n, jc, evidence).events
      == rounds(n, jc).events + RestOf(rounds, max, n, jc, evidence)
  {
  }

  lemma OfRoundInRun<A(!new)>(rounds: Rounds<A>, max: nat, n: nat, jc: nat, evidence: Evidence, r: nat)
    requires n <= max && Separate(rounds)
    ensures OfRound(RunFrom(rounds, max, n, jc, evidence).events, r)
      == if r == n then rounds(n, jc).events else OfRound(RestOf(rounds, max, n, jc, evidence), r)
  {
    var round := rounds(n, jc);
    assert InRounds(round.events, n, n);
    if round.outcome.Goes? && n < max {
      RunStaysInRounds(rounds, max, n + 1, jc + round.judged, Remember(evidence, round.outcome.verdicts));
    }
    FirstRoundOf(round.events, RestOf(rounds, max, n, jc, evidence), n, max, r);
    RunEvents(rounds, max, n, jc, evidence);
  }

  /** Every round of a run has the shape of a round: three requests in all at most. */
  lemma {:induction false} EveryRoundHasShape<A(!new)>(readable: JudgeReply -> bool, rounds: Rounds<A>, max: nat,
                                                       n: nat, jc: nat, evidence: Evidence, r: nat)
    requires n <= max && Shaped(readable, rounds) && Separate(rounds)
    ensures RoundShape(readable, OfRound(RunFrom(rounds, max, n, jc, evidence).events, r))
    decreases max - n
  {
    var round := rounds(n, jc);
    assert RoundShape(readable, round.events);
    OfRoundInRun(rounds, max, n, jc, evidence, r);
    if round.outcome.Goes? && n < max {
      EveryRoundHasShape(readable, rounds, max, n + 1, jc + round.judged,
                         Remember(evidence, round.outcome.verdicts), r);
    }
  }

  // ----- Where answers and events come from -----

  /** Round `m` gives `answer`, and its events are the last of the run. */
  ghost predicate ReturnedBy<A>(rounds: Rounds<A>, m: nat, jc: nat, answer: A, events: seq<Event>) {
    && rounds(m, jc).outcome == Ends(answer)
    && |rounds(m, jc).events| <= |events|
    && events[|events| - |rounds(m, jc).events|..] == rounds(m, jc).events
  }

  lemma ReturnedByLater<A>(rounds: Rounds<A>, m: nat, jc: nat, answer: A, first: seq<Event>, events: seq<Event>)
    requires ReturnedBy(rounds, m, jc, answer, events)
    ensures ReturnedBy(rounds, m, jc, answer, first + events)
  {
    var k := |rounds(m, jc).events|;
    assert (first + events)[|first + events| - k..] == events[|events| - k..];
  }

  /** An answer comes from the last round that was played. */
  lemma {:induction false} AnswersComeFromRounds<A>(rounds: Rounds<A>, max: nat, n: nat, jc: nat, evidence: Evidence)
    returns (m: nat, jc': nat)
    requires n <= max && RunFrom(rounds, max, n, jc, evidence).finish.Returned?
    ensures n <= m <= max
    ensures ReturnedBy(rounds, m, jc', RunFrom(rounds, max, n, jc, evidence).finish.answer,
                       RunFrom(rounds, max, n, jc, evidence).events)
    decreases max - n
  {
    var r := rounds(n, jc);
    m, jc' := n, jc;
    if r.outcome.Goes? {
      var next := Remember(evidence, r.outcome.verdicts);
      var rest := RunFrom(rounds, max, n + 1, jc + r.judged, next);
      m, jc' := AnswersComeFromRounds(rounds, max, n + 1, jc + r.judged, next);
      ReturnedByLater(rounds, m, jc', rest.finish.answer, r.events, rest.events);
    }
  }

  /** The judge requests made before round `m` when the loop starts at round `n` */
  function JudgedBefore<A>(rounds: Rounds<A>, n: nat, jc: nat, m: nat): nat
    decreases m
  {
    if m <= n then jc
    else
      var before := JudgedBefore(rounds, n, jc, m - 1);
      before + rounds(m - 1, before).judged
  }

  lemma {:induction false} JudgedFromNext<A>(rounds: Rounds<A>, n: nat, jc: nat, m: nat)
    requires n < m
    ensures JudgedBefore(rounds, n, jc, m) == JudgedBefore(rounds, n + 1, jc + rounds(n, jc).judged, m)
    decreases m
  {
    if n + 1 < m {
      JudgedFromNext(rounds, n, jc, m - 1);
    } else {
      assert JudgedBefore(rounds, n, jc, n) == jc;
    }
  }

  /** Round `k` of a loop that starts at round `n` */
  function RoundAt<A>(rounds: Rounds<A>, n: nat, jc: nat, k: nat): Round<A> {
    rounds(k, JudgedBefore(rounds, n, jc, k))
  }

  /** The loop returns the answer of the first round that ends, and of no other. */
  lemma {:induction false} FirstEndReturns<A>(rounds: Rounds<A>, max: nat, n: nat, jc: nat, evidence: Evidence, m: nat)
    requires n <= m <= max && RoundAt(rounds, n, jc, m).outcome.Ends?
    requires forall k: nat | n <= k < m :: RoundAt(rounds, n, jc, k).outcome.Goes?
    ensures RunFrom(rounds, max, n, jc, evidence).finish == Returned(RoundAt(rounds, n, jc, m).outcome.answer)
    decreases m - n
  {
    var r := rounds(n, jc);
    assert RoundAt(rounds, n, jc, n) == r;
    if n < m {
      var next, jc' := n + 1, jc + r.judged;
      JudgedFromNext(rounds, n, jc, m);
      forall k: nat | next <= k < m
        ensures RoundAt(rounds, next, jc', k).outcome.Goes?
      {
        JudgedFromNext(rounds, n, jc, k);
        assert RoundAt(rounds, n, jc, k).outcome.Goes?;
      }
      FirstEndReturns(rounds, max, next, jc', Remember(evidence, r.outcome.verdicts), m);
    }
  }

  /** When no round ends, the loop runs out of rounds. */
  lemma {:induction false} NoEndRunsOut<A>(rounds: Rounds<A>, max: nat, n: nat, jc: nat, evidence: Evidence)
    requires n <= max && forall k: nat | n <= k <= max :: RoundAt(rounds, n, jc, k).outcome.Goes?
    ensures RunFrom(rounds, max, n, jc, evidence).finish == OutOfRounds
    decreases max - n
  {
    var r := rounds(n, jc);
    assert RoundAt(rounds, n, jc, n) == r;
    if n < max {
      var next, jc' := n + 1, jc + r.judged;
      forall k: nat | next <= k <= max
        ensures RoundAt(rounds, next, jc', k).outcome.Goes?
      {
        JudgedFromNext(rounds, n, jc, k);
        assert RoundAt(rounds, n, jc, k).outcome.Goes?;
      }
      NoEndRunsOut(rounds, max, next, jc', Remember(evidence, r.outcome.verdicts));
    }
  }

  /** The loop gets to round `m`: all rounds before it go on. */
  ghost predicate GetsTo<A>(rounds: Rounds<A>, m: nat) {
    forall k: nat | 1 <= k < m :: RoundAt(rounds, 1, 0, k).outcome.Goes?
  }

  lemma FirstEnd<A>(rounds: Rounds<A>, max: nat) returns (m: nat)
    ensures 1 <= m <= max + 1 && GetsTo(rounds, m)
    ensures m <= max ==> RoundAt(rounds, 1, 0, m).outcome.Ends?
  {
    m := 1;
    while m <= max && RoundAt(rounds, 1, 0, m).outcome.Goes?
      invariant 1 <= m <= max + 1 && GetsTo(rounds, m)
    {
      m := m + 1;
    }
  }

  /** The loop returns an answer exactly when it gets to a round that ends with it, and runs out of rounds exactly when
      all of them go on. */
  lemma ReturnsIff<A>(rounds: Rounds<A>, max: nat, evidence: Evidence, answer: A)
    requires max >= 1
    ensures RunFrom(rounds, max, 1, 0, evidence).finish == Returned(answer) <==>
      exists m: nat | 1 <= m <= max :: GetsTo(rounds, m) && RoundAt(rounds, 1, 0, m).outcome == Ends(answer)
    ensures RunFrom(rounds, max, 1, 0, evidence).finish == OutOfRounds <==> GetsTo(rounds, max + 1)
  {
    var m := FirstEnd(rounds, max);
    if m <= max {
      FirstEndReturns(rounds, max, 1, 0, evidence, m);
    } else {
      NoEndRunsOut(rounds, max, 1, 0, evidence);
    }
  }

  /** Every event of a run is an event of a round. */
  lemma {:induction false} EventsComeFromRounds<A>(rounds: Rounds<A>, max: nat, n: nat, jc: nat, evidence: Evidence,
                                                   i: nat) returns (m: nat, jc': nat)
    requires n <= max && i < |RunFrom(rounds, max, n, jc, evidence).events|
    ensures n <= m <= max && RunFrom(rounds, max, n, jc, evidence).events[i] in rounds(m, jc').events
    decreases max - n
  {
    var r := rounds(n, jc);
    m, jc' := n, jc;
    if i >= |r.events| {
      m, jc' := EventsComeFromRounds(rounds, max, n + 1, jc + r.judged, Remember(evidence, r.outcome.verdicts),
                                     i - |r.events|);
    }
  }

  predicate Holds(evidence: Evidence, number: int, detail: string) {
    Verdict(number, true, detail) in evidence
  }

  lemma {:induction false} RememberedIs(evidence: Evidence, verdicts: seq<Verdict>, number: int, detail: string)
    ensures Holds(Remember(evidence, verdicts), number, detail)
      <==> Holds(evidence, number, detail) || Verdict(number, true, detail) in verdicts
  {
    if verdicts != [] {
      var front, v := verdicts[..|verdicts| - 1], verdicts[|verdicts| - 1];
      RememberedIs(evidence, front, number, detail);
      assert verdicts == front + [v];
    }
  }

  /** What is remembered was there before or is a verdict of a round whose events are in the run. */
  ghost predicate Attests<A>(rounds: Rounds<A>, m: nat, jc: nat, events: seq<Event>, number: int, detail: string) {
    && rounds(m, jc).outcome.Goes? && Verdict(number, true, detail) in rounds(m, jc).outcome.verdicts
    && forall e | e in rounds(m, jc).events :: e in events
  }

  lemma {:induction false} EvidenceComesFromRounds<A>(rounds: Rounds<A>, max: nat, n: nat, jc: nat, evidence: Evidence,
                                                      number: int, detail: string) returns (m: nat, jc': nat)
    requires n <= max && Holds(RunFrom(rounds, max, n, jc, evidence).evidence, number, detail)
    ensures Holds(evidence, number, detail)
      || Attests(rounds, m, jc', RunFrom(rounds, max, n, jc, evidence).events, number, detail)
    decreases max - n
  {
    var r := rounds(n, jc);
    m, jc' := n, jc;
    if r.outcome.Goes? {
      var next := Remember(evidence, r.outcome.verdicts);
      RememberedIs(evidence, r.outcome.verdicts, number, detail);
      if n < max && !(Verdict(number, true, detail) in r.outcome.verdicts) {
        m, jc' := EvidenceComesFromRounds(rounds, max, n + 1, jc + r.judged, next, number, detail);
      }
    }
  }

  /** Rounds `n` to `m` of a loop that starts at round `n` go on, and the last of them tells the verdict. */
  ghost predicate TellsAt<A>(rounds: Rounds<A>, n: nat, jc: nat, m: nat, v: Verdict) {
    && n <= m && (forall k: nat | n <= k <= m :: RoundAt(rounds, n, jc, k).outcome.Goes?)
    && v in RoundAt(rounds, n, jc, m).outcome.verdicts
  }

  lemma TellsLater<A>(rounds: Rounds<A>, n: nat, jc: nat, m: nat, v: Verdict)
    requires rounds(n, jc).outcome.Goes? && n < m
    ensures TellsAt(rounds, n, jc, m, v) <==> TellsAt(rounds, n + 1, jc + rounds(n, jc).judged, m, v)
  {
    var next, jc' := n + 1, jc + rounds(n, jc).judged;
    assert RoundAt(rounds, n, jc, n) == rounds(n, jc);
    forall k: nat | n < k
      ensures RoundAt(rounds, n, jc, k) == RoundAt(rounds, next, jc', k)
    {
      JudgedFromNext(rounds, n, jc, k);
    }
    if TellsAt(rounds, n, jc, m, v) {
      assert forall k: nat | next <= k <= m :: RoundAt(rounds, n, jc, k) == RoundAt(rounds, next, jc', k);
    }
    if TellsAt(rounds, next, jc', m, v) {
      assert forall k: nat | next <= k <= m :: RoundAt(rounds, n, jc, k) == RoundAt(rounds, next, jc', k);
    }
  }

  /** What the first round contributes */
  lemma TellsFirst<A>(rounds: Rounds<A>, n: nat, jc: nat, v: Verdict)
    ensures TellsAt(rounds, n, jc, n, v) <==>
      rounds(n, jc).outcome.Goes? && v in rounds(n, jc).outcome.verdicts
    ensures forall m: nat | TellsAt(rounds, n, jc, m, v) :: n <= m && rounds(n, jc).outcome.Goes?
  {
    assert RoundAt(rounds, n, jc, n) == rounds(n, jc);
  }

  ghost predicate Told<A>(rounds: Rounds<A>, max: nat, n: nat, jc: nat, v: Verdict) {
    exists m: nat | m <= max :: TellsAt(rounds, n, jc, m, v)
  }

  /** A verdict is told by the first round or by a later one. */
  lemma ToldFirstOrLater<A>(rounds: Rounds<A>, max: nat, n: nat, jc: nat, next: nat, jc': nat, v: Verdict)
    requires rounds(n, jc).outcome.Goes? && n < max && next == n + 1 && jc' == jc + rounds(n, jc).judged
    ensures Told(rounds, max, n, jc, v) <==> v in rounds(n, jc).outcome.verdicts || Told(rounds, max, next, jc', v)
  {
    TellsFirst(rounds, n, jc, v);
    TellsFirst(rounds, next, jc', v);
    if Told(rounds, max, n, jc, v) {
      var m: nat :| m <= max && TellsAt(rounds, n, jc, m, v);
      if n < m {
        TellsLater(rounds, n, jc, m, v);
      }
    }
    if Told(rounds, max, next, jc', v) {
      var m: nat :| m <= max && TellsAt(rounds, next, jc', m, v);
      TellsLater(rounds, n, jc, m, v);
    }
  }

  /** A detail is remembered exactly when it was before or some round that is reached and goes on verified it. */
  lemma {:induction false} RemembersIff<A>(rounds: Rounds<A>, max: nat, n: nat, jc: nat, evidence: Evidence, v: Verdict)
    requires n <= max && v.verified
    ensures Holds(RunFrom(rounds, max, n, jc, evidence).evidence, v.number, v.detail) <==>
      Holds(evidence, v.number, v.detail) || Told(rounds, max, n, jc, v)
    decreases max - n
  {
    var r := rounds(n, jc);
    TellsFirst(rounds, n, jc, v);
    if r.outcome.Goes? {
      RememberedIs(evidence, r.outcome.verdicts, v.number, v.detail);
      if n < max {
        RemembersIff(rounds, max, n + 1, jc + r.judged, Remember(evidence, r.outcome.verdicts), v);
        ToldFirstOrLater(rounds, max, n, jc, n + 1, jc + r.judged, v);
      }
    }
  }

  // ----- Playing round after round -----

  /** `whole` is a run that has seen `events` and goes on with round `n`. */
  ghost predicate Playing<A>(rounds: Rounds<A>, whole: Run<A>, events: seq<Event>, max: nat, n: nat, jc: nat,
                             evidence: Evidence)
  {
    whole == Before(events, RunFrom(rounds, max, n, jc, evidence))
  }

  lemma PlayStarts<A>(rounds: Rounds<A>, max: nat, n: nat, jc: nat, evidence: Evidence)
    ensures Playing(rounds, RunFrom(rounds, max, n, jc, evidence), [], max, n, jc, evidence)
  {
    var whole := RunFrom(rounds, max, n, jc, evidence);
    assert [] + whole.events == whole.events;
  }

  lemma PlayOver<A>(rounds: Rounds<A>, whole: Run<A>, events: seq<Event>, max: nat, n: nat, jc: nat,
                    evidence: Evidence)
    requires n > max && Playing(rounds, whole, events, max, n, jc, evidence)
    ensures whole == Run(AfterLoop, events, evidence)
  {
    assert events + [] == events;
  }

  lemma PlayEnds<A>(rounds: Rounds<A>, whole: Run<A>, events: seq<Event>, max: nat, n: nat, jc: nat,
                    evidence: Evidence, r: Round<A>)
    requires n <= max && rounds(n, jc) == r && Playing(rounds, whole, events, max, n, jc, evidence)
    ensures r.outcome.Ends? ==> whole == Run(Returned(r.outcome.answer), events + r.events, evidence)
    ensures r.outcome.Goes? && n == max ==>
      whole == Run(OutOfRounds, events + r.events, Remember(evidence, r.outcome.verdicts))
  {
  }

  lemma PlayGoes<A>(rounds: Rounds<A>, whole: Run<A>, events: seq<Event>, max: nat, n: nat, jc: nat,
                    evidence: Evidence, r: Round<A>, jc': nat, next: Evidence)
    requires n < max && rounds(n, jc) == r && Playing(rounds, whole, events, max, n, jc, evidence)
    requires r.outcome.Goes? && jc' == jc + r.judged && next == Remember(evidence, r.outcome.verdicts)
    ensures Playing(rounds, whole, events + r.events, max, n + 1, jc', next)
  {
    var rest := RunFrom(rounds, max, n + 1, jc', next);
    assert events + (r.events + rest.events) == events + r.events + rest.events;
  }

  /** Take one round of a loop that has seen `events`; `over` is the whole run when it ends here. */
  method TakeRound<A>(round: Round<A>, max: nat, n: nat, jc: nat, evidence: Evidence, events: seq<Event>,
                      ghost rounds: Rounds<A>, ghost whole: Run<A>)
    returns (over: Option<Run<A>>, judged: nat, next: Evidence, seen: seq<Event>)
    requires n <= max && rounds(n, jc) == round && Playing(rounds, whole, events, max, n, jc, evidence)
    ensures over.Some? ==> over.value == whole
    ensures over.None? ==> n < max && Playing(rounds, whole, seen, max, n + 1, judged, next)
    ensures over.None? ==> round.outcome.Goes? && next == Remember(evidence, round.outcome.verdicts)
  {
    PlayEnds(rounds, whole, events, max, n, jc, evidence, round);
    over, judged, next, seen := None, jc + round.judged, evidence, events + round.events;
    if round.outcome.Ends? {
      over := Some(Run(Returned(round.outcome.answer), seen, evidence));
      return;
    }
    next := RememberVerdicts(evidence, round.outcome.verdicts);
    if n == max {
      over := Some(Run(OutOfRounds, seen, next));
      return;
    }
    PlayGoes(rounds, whole, events, max, n, jc, evidence, round, judged, next);
  }
}

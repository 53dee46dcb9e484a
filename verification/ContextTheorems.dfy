/** What the runtime context promises the tool loop: raw evidence is never dropped early,
    Observations stay in request order, and merging conserves provenance. */
module ContextTheorems {
  import opened Text
  import opened Observations
  import opened RuntimeContext
  import opened ContextOrder
  import opened ContextInvariants

  // ----- Raw evidence -----

  ghost predicate HasCall(raw: seq<RawRound>, round: int, call: RawCall) {
    exists r | r in raw :: r.round == round && call in r.calls
  }

  lemma {:induction false} RecordedInFlat(raw: seq<RawRound>, round: int, call: RawCall)
    requires HasCall(raw, round, call)
    ensures (round, call.id) in Flat(raw)
  {
    var n := |raw| - 1;
    var r :| r in raw && r.round == round && call in r.calls;
    if call in raw[n].calls && raw[n].round == round {
      var i :| 0 <= i < |raw[n].calls| && raw[n].calls[i] == call;
      assert KeysOf(raw[n])[i] == (round, call.id);
    } else {
      assert raw == raw[..n] + [raw[n]];
      assert r in raw[..n];
      RecordedInFlat(raw[..n], round, call);
    }
  }

  lemma RecordedIsNumbered(s: State, round: int, call: RawCall)
    requires Inv(s) && HasCall(s.raw, round, call)
    ensures (round, call.id) in s.callOrder
  {
    RecordedInFlat(s.raw, round, call);
  }

  predicate SucceededCall(s: State, round: int, call: RawCall) {
    (round, call.id) in s.outcomes && s.outcomes[(round, call.id)] == Succeeded
  }

  lemma UnsettledIsVisible(s: State, rawRounds: nat, round: int, call: RawCall)
    requires Inv(s) && HasCall(s.raw, round, call) && call.lifecycle.ObservationClass?
    requires !SucceededCall(s, round, call)
    ensures Visible(s, rawRounds, round, call)
  {
    RecordedIsNumbered(s, round, call);
    PendingIsNoSource(s, (round, call.id));
    if call.id in NegativeIds(s.outcomes, ObservedIds(s.observations)) {
      var key :| key in s.outcomes && s.outcomes[key] == Succeeded && key.1 == call.id;
      OneCallPerId(s, key, (round, call.id));
    }
  }

  /** In any run, a write-class call whose Observation is pending, failed, invalid, cancelled
      or was never requested is in every assembled window. */
  lemma RawEvidenceIsNeverDroppedEarly(events: seq<Event>, rawRounds: nat, round: int, call: RawCall)
    requires Possible(INITIAL, events)
    requires var s := Run(INITIAL, events);
      HasCall(s.raw, round, call) && call.lifecycle.ObservationClass? && !SucceededCall(s, round, call)
    ensures Shows(Assemble(Run(INITIAL, events), rawRounds), round, call)
  {
    var s := Run(INITIAL, events);
    InitiallyInv();
    RunKeepsInv(INITIAL, events);
    UnsettledIsVisible(s, rawRounds, round, call);
    WindowShows(s, rawRounds, round, call);
  }

  lemma UnsettledShownUnlessObserved(s: State, list: seq<Observation>, rawRounds: nat, round: int, call: RawCall)
    requires Inv(s) && HasCall(s.raw, round, call) && call.lifecycle.ObservationClass?
    requires !SucceededCall(s, round, call)
    ensures Shows(Assemble(s.(merging := None, observations := list), rawRounds), round, call)
      <==> call.id !in ObservedIds(list)
  {
    var t := s.(merging := None, observations := list);
    RecordedIsNumbered(s, round, call);
    WindowShows(t, rawRounds, round, call);
    if call.id in NegativeIds(t.outcomes, ObservedIds(t.observations)) {
      var key :| key in s.outcomes && s.outcomes[key] == Succeeded && key.1 == call.id;
      OneCallPerId(s, key, (round, call.id));
    }
  }

  /** Without the assumption on merge replies: an unsettled call stays in the window exactly
      when the accepted reply does not name it. */
  lemma NamedCallsAreHidden(s: State, reply: MergeReply, rawRounds: nat, round: int, call: RawCall)
    requires Inv(s) && s.merging.Some?
    requires MergeOf(s.merging.value.0, s.merging.value.1, reply).Some?
    requires HasCall(s.raw, round, call) && call.lifecycle.ObservationClass? && !SucceededCall(s, round, call)
    ensures Held(s)
    ensures Shows(Assemble(Received(s, reply), rawRounds), round, call) <==> call.id !in SourceIds(reply.observation)
  {
    var i, j, m := ReceivedForm(s, reply);
    RecordedIsNumbered(s, round, call);
    PendingIsNoSource(s, (round, call.id));
    assert Sourced(Flat(s.raw), s.observations[i]);
    MergedShape(s.observations[i], s.observations[j], reply);
    SpliceObserves(s.observations, i, j, m);
    UnsettledShownUnlessObserved(s, Splice(s.observations, i, j, m), rawRounds, round, call);
  }

  // ----- Request order -----

  /** Call `key` is a source of Observation `j`. */
  predicate IsSource(s: State, j: nat, key: Key)
    requires j < |s.observations|
  {
    key in s.callOrder && key.1 in SourceIds(s.observations[j])
  }

  /** Call `a` is the earliest source of Observation `j`, gives it its source round, and comes
      before every source of the Observations after it. */
  ghost predicate StartsAt(s: State, j: nat, a: Key)
    requires j < |s.observations|
  {
    && IsSource(s, j, a) && a.0 == SourceRound(s.observations[j])
    && (forall b | IsSource(s, j, b) :: s.callOrder[a] <= s.callOrder[b])
    && forall k: nat, b | j < k < |s.observations| && IsSource(s, k, b) :: s.callOrder[a] < s.callOrder[b]
  }

  ghost predicate HasStart(s: State, j: nat)
    requires j < |s.observations|
  {
    exists a :: StartsAt(s, j, a)
  }

  /** Observations are sorted by the request order of their earliest source call, and start at
      that call's round. */
  ghost predicate InRequestOrder(s: State) {
    forall j: nat | j < |s.observations| :: HasStart(s, j)
  }

  lemma EarliestCall(s: State, j: nat)
    requires Inv(s) && j < |s.observations|
    ensures var flat, o := Flat(s.raw), s.observations[j];
      && Rank(flat, o) < |flat|
      && var a := flat[Rank(flat, o)];
      && a in s.callOrder && s.callOrder[a] == Rank(flat, o)
      && a.1 in SourceIds(o) && a.0 == SourceRound(o)
      && forall b | b in s.callOrder && b.1 in SourceIds(o) :: Rank(flat, o) <= s.callOrder[b]
  {
    var flat, o := Flat(s.raw), s.observations[j];
    assert Sourced(flat, o);
    forall b | b in s.callOrder && b.1 in SourceIds(o)
      ensures Rank(flat, o) <= s.callOrder[b]
    {
      assert flat[s.callOrder[b]] == b;
    }
  }

  lemma InvIsRequestOrder(s: State)
    requires Inv(s)
    ensures InRequestOrder(s)
  {
    var flat := Flat(s.raw);
    forall j: nat | j < |s.observations|
      ensures HasStart(s, j)
    {
      EarliestCall(s, j);
      var a := flat[Rank(flat, s.observations[j])];
      forall k: nat, b | j < k < |s.observations| && IsSource(s, k, b)
        ensures s.callOrder[a] < s.callOrder[b]
      {
        EarliestCall(s, k);
        assert Rank(flat, s.observations[j]) < Rank(flat, s.observations[k]);
      }
      assert StartsAt(s, j, a);
    }
  }

  lemma ObservationsStayInRequestOrder(events: seq<Event>)
    requires Possible(INITIAL, events)
    ensures InRequestOrder(Run(INITIAL, events))
  {
    InitiallyInv();
    RunKeepsInv(INITIAL, events);
    InvIsRequestOrder(Run(INITIAL, events));
  }

  // ----- Provenance -----

  lemma SourcesNotEmpty(s: State, i: nat)
    requires Inv(s) && i < |s.observations|
    ensures SourceIds(s.observations[i]) != {}
  {
    EarliestCall(s, i);
  }

  /** Accepting a merge keeps every source call exactly when nothing has been sorted between
      the two merged Observations meanwhile; the slice swallows what has. */
  lemma MergeKeepsSources(s: State, reply: MergeReply)
    requires Inv(s) && Enabled(s, Receive(reply))
    requires MergeOf(s.merging.value.0, s.merging.value.1, reply).Some?
    ensures ObservedIds(Received(s, reply).observations) == ObservedIds(s.observations)
      <==> IndexOf(s.observations, s.merging.value.1) == IndexOf(s.observations, s.merging.value.0) + 1
  {
    var list := s.observations;
    var i, j, m := ReceivedForm(s, reply);
    IndexInOrder(Flat(s.raw), list, i);
    IndexInOrder(Flat(s.raw), list, j);
    MergedIsSourced(s, i, j, reply);
    SpliceKeepsSources(s, i, j, m);
  }

  lemma SpliceKeepsSources(s: State, i: nat, j: nat, m: Observation)
    requires Inv(s) && i < j < |s.observations|
    requires SourceIds(m) == SourceIds(s.observations[i]) + SourceIds(s.observations[j])
    ensures ObservedIds(Splice(s.observations, i, j, m)) == ObservedIds(s.observations) <==> j == i + 1
  {
    if j == i + 1 {
      NeighboursKeepSources(s.observations, i, m);
    } else {
      BetweenIsLost(s, i, j, m);
    }
  }

  lemma NeighboursKeepSources(list: seq<Observation>, i: nat, m: Observation)
    requires i + 1 < |list| && SourceIds(m) == SourceIds(list[i]) + SourceIds(list[i + 1])
    ensures ObservedIds(Splice(list, i, i + 1, m)) == ObservedIds(list)
  {
    SpliceObserves(list, i, i + 1, m);
    assert list[i + 1..i + 1] == [];
    assert list[i] in list && list[i + 1] in list;
  }

  lemma BetweenIsLost(s: State, i: nat, j: nat, m: Observation)
    requires Inv(s) && i + 1 < j < |s.observations|
    requires SourceIds(m) == SourceIds(s.observations[i]) + SourceIds(s.observations[j])
    ensures ObservedIds(Splice(s.observations, i, j, m)) != ObservedIds(s.observations)
  {
    var list, l := s.observations, Splice(s.observations, i, j, m);
    SourcesNotEmpty(s, i + 1);
    var id :| id in SourceIds(list[i + 1]);
    SpliceElements(list, i, j, m);
    forall k | 0 <= k < |l|
      ensures id !in SourceIds(l[k])
    {
      var k' := if k <= i then k else k + (j - i);
      assert k' < i + 1 ==> SourceIds(list[k']) !! SourceIds(list[i + 1]);
      assert i + 1 < k' ==> SourceIds(list[i + 1]) !! SourceIds(list[k']);
      assert SourceIds(list[i + 1]) !! SourceIds(list[j]);
    }
    assert id in ObservedIds(list) by {
      assert list[i + 1] in list;
    }
  }

  /** Nothing arrived between the two Observations of an accepted merge. */
  predicate Undisturbed(s: State, e: Event) {
    e.Receive? && Held(s) && MergeOf(s.merging.value.0, s.merging.value.1, e.reply).Some? ==>
      IndexOf(s.observations, s.merging.value.1) == IndexOf(s.observations, s.merging.value.0) + 1
  }

  predicate UndisturbedRun(s: State, events: seq<Event>)
    requires Possible(s, events)
    decreases |events|
  {
    events == [] || (Undisturbed(s, events[0]) && UndisturbedRun(Step(s, events[0]), events[1..]))
  }

  /** The retained Observations name exactly the calls that succeeded with positive impact. */
  ghost predicate Conserved(s: State) {
    ObservedIds(s.observations) == s.positives && forall o | o in s.observations :: o.affects
  }

  lemma SplicedConserves(s: State, list: seq<Observation>)
    requires Conserved(s) && ObservedIds(list) == ObservedIds(s.observations) && forall o | o in list :: o.affects
    ensures Conserved(s.(merging := None, observations := list))
  {
  }

  lemma ReplyKeepsFields(s: State, reply: MergeReply)
    requires Held(s)
    ensures Received(s, reply) == s.(merging := None, observations := Received(s, reply).observations)
    ensures MergeOf(s.merging.value.0, s.merging.value.1, reply).None? ==>
      Received(s, reply).observations == s.observations
  {
  }

  /** Merged or not, positive Observations stay positive. */
  lemma ReplyAffects(s: State, reply: MergeReply)
    requires Held(s) && forall o | o in s.observations :: o.affects
    ensures forall o | o in Received(s, reply).observations :: o.affects
  {
  }

  lemma ReceiveConserves(s: State, reply: MergeReply)
    requires Inv(s) && Conserved(s) && Enabled(s, Receive(reply)) && Undisturbed(s, Receive(reply))
    ensures Conserved(Received(s, reply))
  {
    var list := Received(s, reply).observations;
    ReplyKeepsFields(s, reply);
    ReplyAffects(s, reply);
    assert ObservedIds(list) == ObservedIds(s.observations) by {
      if MergeOf(s.merging.value.0, s.merging.value.1, reply).Some? {
        MergeKeepsSources(s, reply);
      }
    }
    SplicedConserves(s, list);
  }

  lemma FinishConserves(s: State, key: Key, settled: Settled)
    requires Inv(s) && Conserved(s) && SettledFor(settled, key)
    ensures Conserved(Finished(s, key, settled))
  {
    if key in s.tasks && settled.Observed? && settled.observation.affects {
      PositiveKeepsInv(s, key, settled.observation);
      var k := PositiveArrives(s, key, settled.observation);
      InsertMembers(s.observations, k, settled.observation);
    }
  }

  lemma StepConserves(s: State, e: Event)
    requires Inv(s) && Conserved(s) && Enabled(s, e) && Undisturbed(s, e)
    ensures Conserved(Step(s, e))
  {
    match e
    case Finish(key, settled) => FinishConserves(s, key, settled);
    case Receive(reply) => ReceiveConserves(s, reply);
    case _ =>
  }

  /** However often Observations are merged, every call with a positive Observation remains a
      source of a retained one. */
  lemma {:induction false} RunConserves(s: State, events: seq<Event>)
    requires Inv(s) && Conserved(s) && Possible(s, events) && UndisturbedRun(s, events)
    ensures Conserved(Run(s, events))
    decreases |events|
  {
    if events != [] {
      StepKeepsInv(s, events[0]);
      StepConserves(s, events[0]);
      RunConserves(Step(s, events[0]), events[1..]);
    }
  }

  // ----- Hidden calls -----

  lemma RecentRounds(raw: seq<RawRound>, r: RawRound, n: nat, round: int)
    requires n > 0 && round in LastRounds(raw + [r], n)
    ensures round == r.round || round in LastRounds(raw, n)
  {
    var all := raw + [r];
    if |all| > n {
      assert all[|all| - n..] == raw[|raw| - (n - 1)..] + [r];
    }
  }

  lemma SuccessesKept(s: State, e: Event, id: string)
    requires Inv(s) && Enabled(s, e) && SucceededId(s.outcomes, id)
    ensures SucceededId(Step(s, e).outcomes, id)
  {
    match e
    case Start(key) => StartKeepsSuccess(s, key, id);
    case Finish(key, settled) => FinishKeepsSuccess(s, key, settled, id);
    case Receive(reply) => ReplyKeepsFields(s, reply);
    case Record(_, _) =>
    case Send =>
  }

  lemma StartKeepsSuccess(s: State, key: Key, id: string)
    requires SucceededId(s.outcomes, id) && key !in s.outcomes
    ensures SucceededId(Started(s, key).outcomes, id)
  {
    var k :| k in s.outcomes && k.1 == id && s.outcomes[k] == Succeeded;
    assert k in Started(s, key).outcomes && Started(s, key).outcomes[k] == Succeeded;
  }

  lemma FinishKeepsSuccess(s: State, key: Key, settled: Settled, id: string)
    requires Requested(s) && SucceededId(s.outcomes, id)
    ensures SucceededId(Finished(s, key, settled).outcomes, id)
  {
    if key in s.tasks {
      OutcomeChangeKeepsSuccesses(s, key, if settled.Observed? then Succeeded else settled.status);
    }
  }

  lemma ObservedKept(s: State, e: Event)
    requires Inv(s) && Conserved(s) && Enabled(s, e) && Undisturbed(s, e)
    ensures ObservedIds(s.observations) <= ObservedIds(Step(s, e).observations)
  {
    StepConserves(s, e);
  }

  /** What keeps a write-class call out of the window */
  ghost predicate Hidden(s: State, rawRounds: nat, round: int, call: RawCall) {
    call.id in ObservedIds(s.observations)
    || (SucceededId(s.outcomes, call.id) && round !in LastRounds(s.raw, rawRounds))
  }

  lemma HiddenIsInvisible(s: State, rawRounds: nat, round: int, call: RawCall)
    requires call.lifecycle.ObservationClass?
    ensures Hidden(s, rawRounds, round, call) <==> !Visible(s, rawRounds, round, call)
  {
    if SucceededId(s.outcomes, call.id) && call.id !in ObservedIds(s.observations) {
      var key :| key in s.outcomes && key.1 == call.id && s.outcomes[key] == Succeeded;
      assert call.id in NegativeIds(s.outcomes, ObservedIds(s.observations));
    }
  }

  /** Another call than this one has succeeded under the same identifier. */
  ghost predicate AnotherSucceeded(s: State, round: int, id: string) {
    exists key | key in s.outcomes :: key.1 == id && key != (round, id) && s.outcomes[key] == Succeeded
  }

  /** Whatever the identifiers: a recorded write-class call that has not succeeded itself is shown exactly when no
      retained Observation names its identifier, and no other call with that identifier has succeeded or the call is
      recent. */
  lemma UnsettledIsShownIff(s: State, rawRounds: nat, round: int, call: RawCall)
    requires HasCall(s.raw, round, call) && call.lifecycle.ObservationClass? && !SucceededCall(s, round, call)
    ensures Shows(Assemble(s, rawRounds), round, call) <==>
      && call.id !in ObservedIds(s.observations)
      && (AnotherSucceeded(s, round, call.id) ==> round in LastRounds(s.raw, rawRounds))
  {
    WindowShows(s, rawRounds, round, call);
    HiddenIsInvisible(s, rawRounds, round, call);
    assert SucceededId(s.outcomes, call.id) <==> AnotherSucceeded(s, round, call.id);
  }

  lemma RecencyIsLost(s: State, e: Event, rawRounds: nat, round: int, call: RawCall)
    requires rawRounds > 0 && Enabled(s, e) && HasCall(s.raw, round, call)
    requires round in LastRounds(Step(s, e).raw, rawRounds)
    ensures round in LastRounds(s.raw, rawRounds)
  {
    if e.Record? {
      RecentRounds(s.raw, RawRound(e.round, e.calls), rawRounds, round);
    }
  }

  /** A recorded call that has left the window does not come back with the next step, whatever it is. */
  lemma HiddenStaysNext(s: State, e: Event, rawRounds: nat, round: int, call: RawCall)
    requires rawRounds > 0 && Inv(s) && Conserved(s) && Enabled(s, e) && Undisturbed(s, e)
    requires HasCall(s.raw, round, call) && !Visible(s, rawRounds, round, call)
    ensures !Visible(Step(s, e), rawRounds, round, call) && HasCall(Step(s, e).raw, round, call)
  {
    RecordsStay(s, e, round, call);
    match call.lifecycle
    case CurrentRaw => OldStaysOld(s, e, 1, round, call);
    case RecentRaw => OldStaysOld(s, e, rawRounds, round, call);
    case PermanentRaw =>
    case ObservationClass => ObservedStaysHidden(s, e, rawRounds, round, call);
  }

  lemma OldStaysOld(s: State, e: Event, n: nat, round: int, call: RawCall)
    requires n > 0 && Enabled(s, e) && HasCall(s.raw, round, call) && round !in LastRounds(s.raw, n)
    ensures round !in LastRounds(Step(s, e).raw, n)
  {
    if round in LastRounds(Step(s, e).raw, n) {
      RecencyIsLost(s, e, n, round, call);
    }
  }

  lemma ObservedStaysHidden(s: State, e: Event, rawRounds: nat, round: int, call: RawCall)
    requires rawRounds > 0 && Inv(s) && Conserved(s) && Enabled(s, e) && Undisturbed(s, e)
    requires HasCall(s.raw, round, call) && call.lifecycle.ObservationClass?
    requires !Visible(s, rawRounds, round, call)
    ensures !Visible(Step(s, e), rawRounds, round, call)
  {
    HiddenIsInvisible(s, rawRounds, round, call);
    HiddenIsInvisible(Step(s, e), rawRounds, round, call);
    if call.id in ObservedIds(s.observations) {
      ObservedKept(s, e);
    } else {
      SuccessesKept(s, e, call.id);
      OldStaysOld(s, e, rawRounds, round, call);
    }
  }

  lemma RecordsStay(s: State, e: Event, round: int, call: RawCall)
    requires Enabled(s, e) && HasCall(s.raw, round, call)
    ensures HasCall(Step(s, e).raw, round, call)
  {
    var r :| r in s.raw && r.round == round && call in r.calls;
    assert r in Step(s, e).raw;
  }

  lemma {:induction false} HiddenStaysFrom(s: State, events: seq<Event>, rawRounds: nat, round: int, call: RawCall)
    requires rawRounds > 0 && Inv(s) && Conserved(s) && Possible(s, events) && UndisturbedRun(s, events)
    requires HasCall(s.raw, round, call) && !Visible(s, rawRounds, round, call)
    ensures !Visible(Run(s, events), rawRounds, round, call)
    decreases |events|
  {
    if events != [] {
      HiddenStaysNext(s, events[0], rawRounds, round, call);
      StepKeepsInv(s, events[0]);
      StepConserves(s, events[0]);
      HiddenStaysFrom(Step(s, events[0]), events[1..], rawRounds, round, call);
    }
  }

  lemma {:induction false} UndisturbedParts(s: State, a: seq<Event>, b: seq<Event>)
    requires Possible(s, a + b) && UndisturbedRun(s, a + b)
    ensures Possible(s, a) && UndisturbedRun(s, a)
    ensures Possible(Run(s, a), b) && UndisturbedRun(Run(s, a), b) && Run(s, a + b) == Run(Run(s, a), b)
    decreases |a|
  {
    if a == [] {
      assert a + b == b;
    } else {
      assert (a + b)[1..] == a[1..] + b;
      UndisturbedParts(Step(s, a[0]), a[1..], b);
    }
  }

  /** In every undisturbed run: a recorded call of any lifecycle that some window does not show is in no later
      window. */
  lemma HiddenStaysHidden(before: seq<Event>, after: seq<Event>, rawRounds: nat, round: int, call: RawCall)
    requires rawRounds > 0 && Possible(INITIAL, before + after) && UndisturbedRun(INITIAL, before + after)
    ensures Possible(INITIAL, before)
    ensures HasCall(Run(INITIAL, before).raw, round, call) ==>
      !Shows(Assemble(Run(INITIAL, before), rawRounds), round, call) ==>
      !Shows(Assemble(Run(INITIAL, before + after), rawRounds), round, call)
  {
    UndisturbedParts(INITIAL, before, after);
    var s := Run(INITIAL, before);
    InitiallyInv();
    RunKeepsInv(INITIAL, before);
    RunConserves(INITIAL, before);
    WindowShows(s, rawRounds, round, call);
    WindowShows(Run(s, after), rawRounds, round, call);
    if HasCall(s.raw, round, call) && !Visible(s, rawRounds, round, call) {
      HiddenStaysFrom(s, after, rawRounds, round, call);
    }
  }

  // ----- Termination measure -----

  function Workload(s: State): nat {
    |s.observations| + |s.tasks|
  }

  /** Retained Observations plus unfinished requests never grow when a request ends, and fall
      with every accepted merge; a refused merge changes no Observation. */
  lemma WorkloadFalls(s: State, e: Event)
    requires Inv(s) && Enabled(s, e) && (e.Finish? || e.Receive?)
    ensures e.Finish? ==> Workload(Step(s, e)) <= Workload(s)
    ensures e.Finish? && e.key in s.tasks ==> |Step(s, e).tasks| < |s.tasks|
    ensures e.Receive? ==> Step(s, e).tasks == s.tasks
    ensures e.Receive? ==>
      if MergeOf(s.merging.value.0, s.merging.value.1, e.reply).Some? then Workload(Step(s, e)) < Workload(s)
      else Step(s, e).observations == s.observations
    ensures Step(s, e).raw == s.raw
  {
    match e
    case Finish(key, settled) => FinishWorkload(s, key, settled);
    case Receive(reply) => ReceiveWorkload(s, reply);
  }

  lemma FinishWorkload(s: State, key: Key, settled: Settled)
    requires Inv(s) && SettledFor(settled, key)
    ensures var t := Finished(s, key, settled);
      && Workload(t) <= Workload(s) && (key in s.tasks ==> |t.tasks| < |s.tasks|) && t.raw == s.raw
  {
    if key in s.tasks && settled.Observed? && settled.observation.affects {
      var k := PositiveArrives(s, key, settled.observation);
    }
  }

  lemma ReceiveWorkload(s: State, reply: MergeReply)
    requires Inv(s) && Held(s)
    ensures var t := Received(s, reply);
      && t.tasks == s.tasks && t.raw == s.raw && t.callOrder == s.callOrder && t.merging == None
      && (MergeOf(s.merging.value.0, s.merging.value.1, reply).Some? ==> Workload(t) < Workload(s))
      && (MergeOf(s.merging.value.0, s.merging.value.1, reply).None? ==> t.observations == s.observations)
  {
    if MergeOf(s.merging.value.0, s.merging.value.1, reply).Some? {
      var i, j, m := ReceivedForm(s, reply);
      SpliceElements(s.observations, i, j, m);
    }
  }
}

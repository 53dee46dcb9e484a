/** The composite operations of the policy, as runs of the step machine. */
module ContextRuns {
  import opened Text
  import opened Observations
  import opened RuntimeContext
  import opened ContextOrder
  import opened ContextInvariants
  import opened ContextTheorems

  /** One Observation request and how it ended */
  datatype Ended = Ended(key: Key, settled: Settled)

  predicate AllSettled(ended: seq<Ended>) {
    forall i | 0 <= i < |ended| :: SettledFor(ended[i].settled, ended[i].key)
  }

  /** Requests end one after the other. */
  function Arrive(s: State, ended: seq<Ended>): State {
    if ended == [] then s
    else
      var n := |ended| - 1;
      Finished(Arrive(s, ended[..n]), ended[n].key, ended[n].settled)
  }

  /** The write-class calls of a batch that get an Observation */
  predicate WantsObservation(call: RawCall) {
    call.lifecycle == ObservationClass && call.error == None
  }

  /** Requests are started in call order; others may end after each start. */
  function StartAll(s: State, round: int, calls: seq<RawCall>, meanwhile: nat -> seq<Ended>): State {
    if calls == [] then s
    else
      var n := |calls| - 1;
      var before := StartAll(s, round, calls[..n], meanwhile);
      if WantsObservation(calls[n]) then Arrive(Started(before, (round, calls[n].id)), meanwhile(n)) else before
  }

  /** Recorded evidence, request order and the merge in flight stay; no new outcome appears,
      and the workload does not grow. */
  ghost predicate SameCalls(s: State, t: State) {
    && t.raw == s.raw && t.callOrder == s.callOrder && t.nextOrder == s.nextOrder && t.merging == s.merging
    && t.outcomes.Keys == s.outcomes.Keys && Workload(t) <= Workload(s)
  }

  lemma FinishKeepsFields(s: State, key: Key, settled: Settled)
    requires Requested(s)
    ensures var t := Finished(s, key, settled);
      && t.outcomes.Keys == s.outcomes.Keys
      && t.raw == s.raw && t.callOrder == s.callOrder && t.nextOrder == s.nextOrder && t.merging == s.merging
  {
  }

  lemma FinishKeepsCalls(s: State, key: Key, settled: Settled)
    requires Inv(s) && SettledFor(settled, key)
    ensures SameCalls(s, Finished(s, key, settled))
  {
    WorkloadFalls(s, Finish(key, settled));
    FinishKeepsFields(s, key, settled);
  }

  /** Requests that end are steps of the machine; nothing else changes meanwhile. */
  lemma {:induction false} ArriveRuns(s: State, ended: seq<Ended>) returns (events: seq<Event>)
    requires Inv(s) && AllSettled(ended)
    ensures Possible(s, events) && Run(s, events) == Arrive(s, ended)
    ensures Inv(Arrive(s, ended)) && SameCalls(s, Arrive(s, ended))
    decreases |ended|
  {
    events := [];
    if ended != [] {
      var n := |ended| - 1;
      var key, settled := ended[n].key, ended[n].settled;
      events := ArriveRuns(s, ended[..n]);
      var before := Arrive(s, ended[..n]);
      FinishKeepsCalls(before, key, settled);
      FinishKeepsInv(before, key, settled);
      RunAppend(s, events, Finish(key, settled));
      events := events + [Finish(key, settled)];
    }
  }

  /** Calls of a batch whose Observation can still be requested */
  ghost predicate Unrequested(s: State, round: int, calls: seq<RawCall>) {
    && (forall i | 0 <= i < |calls| :: (round, calls[i].id) in s.callOrder && (round, calls[i].id) !in s.outcomes)
    && forall i, j | 0 <= i < j < |calls| :: calls[i].id != calls[j].id
  }

  /** The successful write-class calls of a batch */
  function RequestedKeys(round: int, calls: seq<RawCall>): set<Key> {
    set i | 0 <= i < |calls| && calls[i].lifecycle == ObservationClass && calls[i].error == None :: (round, calls[i].id)
  }

  lemma MoreRequested(round: int, calls: seq<RawCall>, n: nat)
    requires |calls| == n + 1
    ensures RequestedKeys(round, calls)
      == RequestedKeys(round, calls[..n]) + if WantsObservation(calls[n]) then {(round, calls[n].id)} else {}
  {
    assert forall i | 0 <= i < n :: calls[..n][i] == calls[i];
  }

  lemma StartThenArrive(s: State, key: Key, ended: seq<Ended>) returns (events: seq<Event>)
    requires Inv(s) && Enabled(s, Start(key)) && AllSettled(ended)
    ensures var t := Arrive(Started(s, key), ended);
      && Possible(s, events) && Run(s, events) == t && Inv(t)
      && t.callOrder == s.callOrder && t.raw == s.raw && t.outcomes.Keys == s.outcomes.Keys + {key}
  {
    StartKeepsInv(s, key);
    StartedCalls(s, key);
    var mid := Started(s, key);
    var more := ArriveRuns(mid, ended);
    StartCons(s, key, mid, more);
    events := [Start(key)] + more;
  }

  lemma StartedCalls(s: State, key: Key)
    ensures Started(s, key).callOrder == s.callOrder && Started(s, key).raw == s.raw
    ensures Started(s, key).outcomes.Keys == s.outcomes.Keys + {key}
  {
  }

  lemma StartCons(s: State, key: Key, mid: State, more: seq<Event>)
    requires Enabled(s, Start(key)) && mid == Started(s, key) && Possible(mid, more)
    ensures Possible(s, [Start(key)] + more) && Run(s, [Start(key)] + more) == Run(mid, more)
  {
    RunCons(s, Start(key), more);
  }

  /** The events lead from `s` to `t`, where nothing is new but these requests. */
  ghost predicate Starts(s: State, keys: set<Key>, events: seq<Event>, t: State) {
    && Leads(s, events, t) && Inv(t) && t.callOrder == s.callOrder && t.raw == s.raw
    && t.outcomes.Keys == s.outcomes.Keys + keys
  }

  lemma NextCallStarts(s: State, call: RawCall, round: int, ended: seq<Ended>, t: State) returns (events: seq<Event>)
    requires Inv(s) && AllSettled(ended) && (round, call.id) in s.callOrder && (round, call.id) !in s.outcomes
    requires t == if WantsObservation(call) then Arrive(Started(s, (round, call.id)), ended) else s
    ensures Starts(s, if WantsObservation(call) then {(round, call.id)} else {}, events, t)
  {
    events := [];
    if WantsObservation(call) {
      events := StartThenArrive(s, (round, call.id), ended);
    }
  }

  lemma StartsOn(s: State, a: set<Key>, events: seq<Event>, mid: State, b: set<Key>, more: seq<Event>, t: State)
    requires Starts(s, a, events, mid) && Starts(mid, b, more, t)
    ensures Starts(s, a + b, events + more, t)
  {
    LeadsOn(s, events, mid, more, t);
  }

  lemma StillUnrequested(s: State, round: int, calls: seq<RawCall>, n: nat, events: seq<Event>, t: State)
    requires Unrequested(s, round, calls) && |calls| == n + 1
    requires Starts(s, RequestedKeys(round, calls[..n]), events, t)
    ensures Inv(t) && (round, calls[n].id) in t.callOrder && (round, calls[n].id) !in t.outcomes
  {
  }

  /** Starting the requests of a fresh batch is a run of the machine, and requests exactly its successful write-class
      calls. */
  lemma {:induction false} StartAllRuns(s: State, round: int, calls: seq<RawCall>, meanwhile: nat -> seq<Ended>)
    returns (events: seq<Event>)
    requires Inv(s) && Unrequested(s, round, calls) && forall n :: AllSettled(meanwhile(n))
    ensures Starts(s, RequestedKeys(round, calls), events, StartAll(s, round, calls, meanwhile))
    decreases |calls|
  {
    events := [];
    if calls != [] {
      var n := |calls| - 1;
      var before, t := StartAll(s, round, calls[..n], meanwhile), StartAll(s, round, calls, meanwhile);
      events := StartAllRuns(s, round, calls[..n], meanwhile);
      StillUnrequested(s, round, calls, n, events, before);
      var more := NextCallStarts(before, calls[n], round, meanwhile(n), t);
      StartsOn(s, RequestedKeys(round, calls[..n]), events, before,
               if WantsObservation(calls[n]) then {(round, calls[n].id)} else {}, more, t);
      MoreRequested(round, calls, n);
      events := events + more;
    }
  }

  /** Recording a batch with fresh identifiers, in a later round than all before, and starting
      its requests keeps the invariant, whatever settles meanwhile. */
  lemma RecordRoundRuns(s: State, round: int, calls: seq<RawCall>, meanwhile: nat -> seq<Ended>)
    returns (events: seq<Event>)
    requires Inv(s) && Enabled(s, Record(round, calls)) && forall n :: AllSettled(meanwhile(n))
    ensures var t := StartAll(Recorded(s, round, calls), round, calls, meanwhile);
      && Possible(s, events) && Run(s, events) == t && Inv(t)
      && t.raw == s.raw + [RawRound(round, calls)]
      && t.outcomes.Keys == s.outcomes.Keys + RequestedKeys(round, calls)
  {
    var recorded := Recorded(s, round, calls);
    RecordKeepsInv(s, round, calls);
    FreshIsUnrequested(s, round, calls);
    events := StartAllRuns(recorded, round, calls, meanwhile);
    RunCons(s, Record(round, calls), events);
    events := [Record(round, calls)] + events;
  }

  lemma FreshKeyIsUnknown(s: State, round: int, calls: seq<RawCall>, i: nat)
    requires Inv(s) && Enabled(s, Record(round, calls)) && i < |calls|
    ensures (round, calls[i].id) !in s.callOrder
  {
    var key := (round, calls[i].id);
    assert forall k | 0 <= k < |Flat(s.raw)| :: Flat(s.raw)[k] != key;
  }

  lemma FreshIsUnrequested(s: State, round: int, calls: seq<RawCall>)
    requires Inv(s) && Enabled(s, Record(round, calls))
    ensures Unrequested(Recorded(s, round, calls), round, calls)
  {
    var flat, keys := Flat(s.raw), KeysOf(RawRound(round, calls));
    OrderCallsNumbers(flat, s.callOrder, round, calls);
    forall i | 0 <= i < |calls|
      ensures (round, calls[i].id) in Recorded(s, round, calls).callOrder && (round, calls[i].id) !in s.outcomes
    {
      assert (flat + keys)[|flat| + i] == (round, calls[i].id);
      FreshKeyIsUnknown(s, round, calls, i);
    }
  }

  lemma SentMerge(s: State)
    requires Inv(s) && s.merging == None && |s.observations| >= 2
    ensures Enabled(s, Send) && Step(s, Send) == s.(merging := Some((s.observations[0], s.observations[1])))
    ensures Inv(s.(merging := Some((s.observations[0], s.observations[1]))))
    ensures Workload(Step(s, Send)) == Workload(s)
  {
    assert Before(s.observations, s.observations[0], s.observations[1]);
  }

  lemma ReplyIsEnabled(s: State, reply: MergeReply)
    requires Inv(s) && s.merging.Some? && NamesOnlySources(reply, s.merging.value.0, s.merging.value.1)
    ensures Held(s) && Enabled(s, Receive(reply))
  {
    var i, j := MergedPositions(s);
  }

  /** A reply arrives in a state with a merge in flight. */
  lemma ReplyShrinks(s: State, reply: MergeReply)
    requires Inv(s) && Enabled(s, Receive(reply))
    ensures var t := Received(s, reply);
      && t.merging == None && t.raw == s.raw && t.callOrder == s.callOrder && Workload(t) <= Workload(s)
      && (MergeOf(s.merging.value.0, s.merging.value.1, reply).Some? ==> Workload(t) < Workload(s))
      && (MergeOf(s.merging.value.0, s.merging.value.1, reply).None? ==> t.observations == s.observations)
  {
    ReceiveWorkload(s, reply);
  }

  /** Sending a merge, letting requests end and receiving the reply is a run of the machine;
      an accepted reply makes the workload fall. */
  lemma MergeRuns(s: State, ended: seq<Ended>, reply: MergeReply) returns (events: seq<Event>)
    requires Inv(s) && s.merging == None && |s.observations| >= 2 && AllSettled(ended)
    requires NamesOnlySources(reply, s.observations[0], s.observations[1])
    ensures var waiting := Arrive(s.(merging := Some((s.observations[0], s.observations[1]))), ended);
      && Held(waiting) && waiting.merging == Some((s.observations[0], s.observations[1]))
      && var t := Received(waiting, reply);
      && Possible(s, events) && Run(s, events) == t && Inv(t) && t.merging == None
      && t.raw == s.raw && t.callOrder == s.callOrder && Workload(t) <= Workload(s)
      && (MergeOf(s.observations[0], s.observations[1], reply).Some? ==> Workload(t) < Workload(s))
      && (MergeOf(s.observations[0], s.observations[1], reply).None? ==> t.observations == waiting.observations)
  {
    SentMerge(s);
    var sent := Step(s, Send);
    events := ArriveRuns(sent, ended);
    var waiting := Arrive(sent, ended);
    ReplyIsEnabled(waiting, reply);
    ReceiveKeepsInv(waiting, reply);
    ReplyShrinks(waiting, reply);
    RunAppend(sent, events, Receive(reply));
    RunCons(s, Send, events + [Receive(reply)]);
    events := [Send] + (events + [Receive(reply)]);
  }
}

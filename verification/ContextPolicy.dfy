/** The runtime-context policy as the tool loops use it: an object that is updated in place
    while Observation requests settle at every await. */
module ContextPolicy {
  import opened Text
  import opened Json
  import opened Observations
  import opened RuntimeContext
  import opened ContextInvariants
  import opened ContextTheorems
  import opened ContextRuns

  /** What a provider makes of one request */
  datatype ModelReply = Interrupted | Broken | Answer(text: string)

  /** One Observation request and what its provider made of it */
  datatype RequestEnd = RequestEnd(key: Key, reply: ModelReply)

  /** Which requests end while a merge request is awaited, and what its provider makes of that one */
  datatype MergeTurn = MergeTurn(ended: seq<RequestEnd>, reply: ModelReply)

  type Environment = (nat, Observation, Observation) -> MergeTurn

  /** How a request for one call ends, given what the provider made of it */
  function Settle(key: Key, reply: ModelReply, other: OtherLiterals): (r: Settled)
    ensures SettledFor(r, key)
  {
    match reply
    case Interrupted => Refused(Cancelled)
    case Broken => Refused(ProviderError)
    case Answer(text) =>
      match ParseObservation(text, key.0, Some(key.1), other)
      case Some(o) => Observed(o)
      case None => Refused(Invalid)
  }

  /** How a merge request ends */
  function ReadMerge(second: Observation, reply: ModelReply, other: OtherLiterals): MergeReply {
    match reply
    case Answer(text) =>
      (match ParseObservation(text, second.round, None, other)
       case Some(o) => Merged(o)
       case None => NoMerge)
    case _ => NoMerge
  }

  /** What is made of the provider's replies: how a request for one call ends, and what a merge that awaits the
      second Observation brings back */
  datatype Reading = Reading(settle: (Key, ModelReply) -> Settled, merge: (Observation, ModelReply) -> MergeReply)

  ghost predicate Sound(reading: Reading) {
    forall key, reply :: SettledFor(reading.settle(key, reply), key)
  }

  /** Replies are read as Observations of the line protocol. */
  function ProtocolReading(other: OtherLiterals): Reading {
    Reading((key: Key, reply: ModelReply) => Settle(key, reply, other),
            (second: Observation, reply: ModelReply) => ReadMerge(second, reply, other))
  }

  /** Whatever text a provider returns, a request for a call ends as one of that call; and a reply is used for a merge
      only when it parses as an Observation of the second one's round. */
  lemma ProtocolIsSound(other: OtherLiterals)
    ensures Sound(ProtocolReading(other))
    ensures forall o: Observation, reply :: ProtocolReading(other).merge(o, reply).Merged? ==>
      ProtocolReading(other).merge(o, reply).observation.round == o.round
  {
    forall key, reply
      ensures SettledFor(ProtocolReading(other).settle(key, reply), key)
    {
      assert SettledFor(Settle(key, reply, other), key);
    }
  }

  function SettleAll(reading: Reading, ended: seq<RequestEnd>): (r: seq<Ended>)
    ensures |r| == |ended|
    ensures forall i | 0 <= i < |r| :: r[i] == Ended(ended[i].key, reading.settle(ended[i].key, ended[i].reply))
  {
    seq(|ended|, i requires 0 <= i < |ended| => Ended(ended[i].key, reading.settle(ended[i].key, ended[i].reply)))
  }

  function SettleMeanwhile(reading: Reading, meanwhile: nat -> seq<RequestEnd>): nat -> seq<Ended> {
    (n: nat) => SettleAll(reading, meanwhile(n))
  }

  lemma MeanwhileSettles(reading: Reading, meanwhile: nat -> seq<RequestEnd>)
    requires Sound(reading)
    ensures forall n :: AllSettled(SettleMeanwhile(reading, meanwhile)(n))
  {
    forall n: nat
      ensures AllSettled(SettleMeanwhile(reading, meanwhile)(n))
    {
      EndsSettle(reading, meanwhile(n));
    }
  }

  lemma EndsSettle(reading: Reading, ended: seq<RequestEnd>)
    requires Sound(reading)
    ensures AllSettled(SettleAll(reading, ended))
  {
  }

  /** Recording a batch with fresh identifiers is a run, whether or not its requests are suppressed. */
  lemma RecordingRuns(s: State, round: int, calls: seq<RawCall>, suppress: bool, meanwhile: nat -> seq<Ended>)
    returns (events: seq<Event>)
    requires Inv(s) && Enabled(s, Record(round, calls)) && forall n :: AllSettled(meanwhile(n))
    ensures var t := if suppress then Recorded(s, round, calls)
                     else StartAll(Recorded(s, round, calls), round, calls, meanwhile);
      && Possible(s, events) && Run(s, events) == t && Inv(t)
      && t.raw == s.raw + [RawRound(round, calls)]
      && t.outcomes.Keys == s.outcomes.Keys + if suppress then {} else RequestedKeys(round, calls)
  {
    if suppress {
      RecordKeepsInv(s, round, calls);
      RunAppend(s, [], Record(round, calls));
      events := [] + [Record(round, calls)];
    } else {
      events := RecordRoundRuns(s, round, calls, meanwhile);
    }
  }

  datatype Maintained = Window(context: Context) | OverBudget | MergeFailed

  class RuntimeContextPolicy {
    const budget: nat
    const rawRounds: nat
    const reading: Reading
    var raw: seq<RawRound>
    var observations: seq<Observation>
    var outcomes: map<Key, Status>
    var tasks: multiset<Key>
    var callOrder: map<Key, nat>
    var nextOrder: nat
    ghost var merging: Option<(Observation, Observation)>
    ghost var positives: set<string>

    ghost function Model(): State
      reads this
    {
      State(raw, observations, outcomes, tasks, callOrder, nextOrder, merging, positives)
    }

    ghost predicate Valid()
      reads this
    {
      rawRounds > 0 && Sound(reading) && Inv(Model())
    }

    constructor (budget: nat, rawRounds: nat, reading: Reading)
      requires budget > 0 && rawRounds > 0 && Sound(reading)
      ensures Valid() && Model() == INITIAL
      ensures this.budget == budget && this.rawRounds == rawRounds && this.reading == reading
    {
      this.budget, this.rawRounds, this.reading := budget, rawRounds, reading;
      raw, observations, outcomes, tasks, callOrder, nextOrder := [], [], map[], multiset{}, map[], 0;
      merging, positives := None, {};
    }

    /** The end of `_observe`: an Observation request that is in flight settles. */
    method FinishObservation(key: Key, settled: Settled)
      modifies this
      ensures Model() == Finished(old(Model()), key, settled)
    {
      if key !in tasks {
        return;
      }
      tasks := tasks - multiset{key};
      match settled {
        case Refused(status) =>
          outcomes := outcomes[key := status];
        case Observed(observation) =>
          if observation.affects {
            observations := observations + [observation];
            observations := SortByOrder(callOrder, nextOrder, observations);
            positives := positives + {key.1};
          }
          outcomes := outcomes[key := Succeeded];
      }
    }

    /** An await: any requests in flight may end. */
    method Await(ended: seq<RequestEnd>)
      modifies this
      ensures Model() == Arrive(old(Model()), SettleAll(reading, ended))
    {
      ghost var settled := SettleAll(reading, ended);
      for i := 0 to |ended|
        invariant Model() == Arrive(old(Model()), settled[..i])
      {
        assert settled[..i + 1][..i] == settled[..i];
        FinishObservation(ended[i].key, reading.settle(ended[i].key, ended[i].reply));
      }
      assert settled[..|ended|] == settled;
    }

    /** Number the calls of a batch in request order. */
    method NumberCalls(round: int, calls: seq<RawCall>)
      modifies this`callOrder, this`nextOrder
      ensures callOrder == OrderCalls(old(callOrder), old(nextOrder), round, calls)
      ensures nextOrder == old(nextOrder) + |calls|
    {
      for i := 0 to |calls|
        invariant callOrder == OrderCalls(old(callOrder), old(nextOrder), round, calls[..i])
        invariant nextOrder == old(nextOrder) + i
      {
        assert calls[..i + 1][..i] == calls[..i];
        callOrder := callOrder[(round, calls[i].id) := nextOrder];
        nextOrder := nextOrder + 1;
      }
      assert calls[..|calls|] == calls;
    }

    method StartObservation(key: Key)
      modifies this
      ensures Model() == Started(old(Model()), key)
    {
      outcomes := outcomes[key := Pending];
      tasks := tasks + multiset{key};
    }

    /** Record a settled batch and start requests.  For a batch with fresh identifiers in a later round this is a run
        of the step machine, and exactly the successful write-class calls are requested. */
    method RecordToolRound(round: int, calls: seq<RawCall>, suppress: bool, meanwhile: nat -> seq<RequestEnd>)
      returns (ghost events: seq<Event>)
      modifies this
      ensures Model() ==
        if suppress then Recorded(old(Model()), round, calls)
        else StartAll(Recorded(old(Model()), round, calls), round, calls, SettleMeanwhile(reading, meanwhile))
      ensures old(Valid() && Enabled(Model(), Record(round, calls))) ==>
        Valid() && Possible(old(Model()), events) && Run(old(Model()), events) == Model()
      ensures old(Valid() && Enabled(Model(), Record(round, calls))) ==>
        && raw == old(raw) + [RawRound(round, calls)]
        && outcomes.Keys == old(outcomes.Keys) + if suppress then {} else RequestedKeys(round, calls)
    {
      events := [];
      if Valid() && Enabled(Model(), Record(round, calls)) {
        MeanwhileSettles(reading, meanwhile);
        events := RecordingRuns(Model(), round, calls, suppress, SettleMeanwhile(reading, meanwhile));
      }
      raw := raw + [RawRound(round, calls)];
      NumberCalls(round, calls);
      ghost var recorded := Model();
      assert recorded == Recorded(old(Model()), round, calls);
      if !suppress {
        StartObservations(round, calls, meanwhile);
      }
    }

    method StartObservations(round: int, calls: seq<RawCall>, meanwhile: nat -> seq<RequestEnd>)
      modifies this
      ensures Model() == StartAll(old(Model()), round, calls, SettleMeanwhile(reading, meanwhile))
    {
      for i := 0 to |calls|
        invariant Model() == StartAll(old(Model()), round, calls[..i], SettleMeanwhile(reading, meanwhile))
      {
        assert calls[..i + 1][..i] == calls[..i];
        if WantsObservation(calls[i]) {
          StartObservation((round, calls[i].id));
          Await(meanwhile(i));
        }
      }
      assert calls[..|calls|] == calls;
    }

    /** The current window */
    method AssembleWindow() returns (context: Context)
      ensures context == Assemble(Model(), rawRounds)
    {
      context := Context(observations, VisibleRounds(FilterOf(raw, observations, outcomes, rawRounds), raw));
    }

    /** Ask for one merge; None is the error that ends `maintain`. */
    method MergeObservations(first: Observation, second: Observation, turn: MergeTurn)
      returns (merged: Option<Observation>)
      modifies this
      ensures Model() == Arrive(old(Model()), SettleAll(reading, turn.ended))
      ensures merged == MergeOf(first, second, reading.merge(second, turn.reply))
    {
      Await(turn.ended);
      merged := MergeOf(first, second, reading.merge(second, turn.reply));
    }

    /** The merge request fails, or its reply loses a source. */
    predicate Unusable(first: Observation, second: Observation, turn: MergeTurn) {
      MergeOf(first, second, reading.merge(second, turn.reply)).None?
    }

    /** Assemble a window, merging the two oldest Observations until it fits the budget; it fails on a merge only
        when the reply for the two that were oldest is of no use.  The environment decides what settles during each
        merge request and what the reply is. */
    method Maintain(cost: Context -> nat, env: Environment)
      returns (r: Maintained, merges: nat, ghost events: seq<Event>, ghost last: Option<(Observation, Observation)>)
      requires Valid() && merging == None
      requires forall n, a, b :: NamesOnlySources(reading.merge(b, env(n, a, b).reply), a, b)
      modifies this
      ensures Valid() && merging == None
      ensures raw == old(raw) && callOrder == old(callOrder)
      ensures Possible(old(Model()), events) && Run(old(Model()), events) == Model()
      ensures merges + Workload(Model()) <= Workload(old(Model()))
      ensures r.Window? ==> r.context == Assemble(Model(), rawRounds) && cost(r.context) <= budget
      ensures r.OverBudget? ==> |observations| < 2 && cost(Assemble(Model(), rawRounds)) > budget
      ensures r.MergeFailed? ==>
        last.Some? && Unusable(last.value.0, last.value.1, env(merges, last.value.0, last.value.1))
      ensures old(cost(Assemble(Model(), rawRounds))) <= budget ==> r.Window? && merges == 0 && Model() == old(Model())
    {
      merges, events, last := 0, [], None;
      var context := AssembleWindow();
      ghost var fits := cost(context) <= budget;
      while cost(context) > budget
        invariant Valid() && merging == None && raw == old(raw) && callOrder == old(callOrder)
        invariant Possible(old(Model()), events) && Run(old(Model()), events) == Model()
        invariant merges + Workload(Model()) <= Workload(old(Model()))
        invariant context == Assemble(Model(), rawRounds)
        invariant fits ==> cost(context) <= budget && merges == 0 && Model() == old(Model())
        decreases Workload(Model())
      {
        if |observations| < 2 {
          return OverBudget, merges, events, last;
        }
        last := Some((observations[0], observations[1]));
        var merged, steps := MergeOldest(env(merges, observations[0], observations[1]));
        RunConcat(old(Model()), events, steps);
        events := events + steps;
        if !merged {
          return MergeFailed, merges, events, last;
        }
        merges := merges + 1;
        context := AssembleWindow();
      }
      return Window(context), merges, events, last;
    }

    /** One turn of the loop: the two oldest Observations give way to their merge, unless the
        request fails. */
    method MergeOldest(turn: MergeTurn) returns (ok: bool, ghost events: seq<Event>)
      requires Valid() && merging == None && |observations| >= 2
      requires NamesOnlySources(reading.merge(observations[1], turn.reply), observations[0], observations[1])
      modifies this
      ensures Valid() && merging == None
      ensures raw == old(raw) && callOrder == old(callOrder)
      ensures Possible(old(Model()), events) && Run(old(Model()), events) == Model()
      ensures ok <==> !Unusable(old(observations[0]), old(observations[1]), turn)
      ensures ok ==> Workload(Model()) < Workload(old(Model()))
      ensures !ok ==> Workload(Model()) <= Workload(old(Model()))
      ensures !ok ==>
        observations == Arrive(old(Model()).(merging := Some((old(observations[0]), old(observations[1])))),
                               SettleAll(reading, turn.ended)).observations
    {
      var first, second := observations[0], observations[1];
      events := MergeRuns(Model(), SettleAll(reading, turn.ended), reading.merge(second, turn.reply));
      merging := Some((first, second));
      var merged := MergeObservations(first, second, turn);
      ok := merged.Some?;
      ReplaceMerged(first, second, merged, reading.merge(second, turn.reply));
    }

    /** Put the merged Observation, if there is one, in place of its sources. */
    method ReplaceMerged(first: Observation, second: Observation, merged: Option<Observation>, ghost reply: MergeReply)
      requires Held(Model()) && merging == Some((first, second)) && merged == MergeOf(first, second, reply)
      modifies this`observations, this`merging
      ensures Model() == Received(old(Model()), reply)
    {
      merging := None;
      if merged.Some? {
        var firstIndex, secondIndex := IndexOf(observations, first), IndexOf(observations, second);
        observations := Splice(observations, firstIndex, secondIndex, merged.value);
      }
    }
  }
}

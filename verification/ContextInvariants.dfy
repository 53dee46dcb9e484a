/** What every step of the runtime-context policy keeps, under any interleaving. */
module ContextInvariants {
  import opened Text
  import opened Observations
  import opened RuntimeContext
  import opened ContextOrder
  import Lists

  // ----- Events -----

  datatype Event =
    | Record(round: int, calls: seq<RawCall>)
    | Start(key: Key)
    | Finish(key: Key, settled: Settled)
    | Send
    | Receive(reply: MergeReply)

  /** What one Observation request can end with for a call */
  predicate SettledFor(settled: Settled, key: Key) {
    match settled
    case Refused(status) => status != Succeeded && status != Pending
    case Observed(o) => o.round == key.0 && AttributedTo(o, key.1)
  }

  /** A merge reply names no call but those of its two sources. */
  predicate NamesOnlySources(reply: MergeReply, first: Observation, second: Observation) {
    reply.Merged? ==> SourceIds(reply.observation) <= SourceIds(first) + SourceIds(second)
  }

  predicate Held(s: State) {
    s.merging.Some? && s.merging.value.0 in s.observations && s.merging.value.1 in s.observations
  }

  /** What the code itself sees to: requests are made for recorded calls and end as such, a merge is sent with two
      Observations at hand, and its reply is used when both are still there. */
  predicate Allowed(s: State, e: Event) {
    match e
    case Record(_, _) => true
    case Start(key) => key in s.callOrder
    case Finish(key, settled) => SettledFor(settled, key)
    case Send => s.merging.None? && |s.observations| >= 2
    case Receive(_) => Held(s)
  }

  /** Tool-call identifiers are unique, rounds grow, requests are made once per recorded call,
      and merge replies name their sources. */
  predicate Enabled(s: State, e: Event) {
    && Allowed(s, e)
    && match e
       case Record(round, calls) =>
         FreshBatch(Flat(s.raw), round, calls) && forall r | r in s.raw :: r.round < round
       case Start(key) => key !in s.outcomes
       case Receive(reply) => NamesOnlySources(reply, s.merging.value.0, s.merging.value.1)
       case _ => true
  }

  function Step(s: State, e: Event): State
    requires Allowed(s, e)
  {
    match e
    case Record(round, calls) => Recorded(s, round, calls)
    case Start(key) => Started(s, key)
    case Finish(key, settled) => Finished(s, key, settled)
    case Send => s.(merging := Some((s.observations[0], s.observations[1])))
    case Receive(reply) => Received(s, reply)
  }

  // ----- The invariant -----

  ghost predicate IncreasingRounds(raw: seq<RawRound>) {
    forall i, j | 0 <= i < j < |raw| :: raw[i].round < raw[j].round
  }

  ghost predicate DisjointSources(list: seq<Observation>) {
    forall i, j | 0 <= i < j < |list| :: SourceIds(list[i]) !! SourceIds(list[j])
  }

  ghost predicate SucceededId(outcomes: map<Key, Status>, id: string) {
    exists key | key in outcomes :: key.1 == id && outcomes[key] == Succeeded
  }

  /** Observations are in request order, start at their earliest call and share no call. */
  ghost predicate Arranged(flat: seq<Key>, list: seq<Observation>) {
    AllSourced(flat, list) && InOrder(flat, list) && DisjointSources(list)
  }

  /** Requests belong to recorded calls; those in flight are pending, once each. */
  ghost predicate Requested(s: State) {
    && s.outcomes.Keys <= s.callOrder.Keys
    && forall key | key in s.tasks :: s.tasks[key] == 1 && key in s.outcomes && s.outcomes[key] == Pending
  }

  /** Only calls whose own Observation succeeded are sources of retained Observations. */
  ghost predicate Justified(s: State) {
    && ObservedIds(s.observations) <= s.positives
    && forall id | id in s.positives :: SucceededId(s.outcomes, id)
  }

  ghost predicate Before(list: seq<Observation>, a: Observation, b: Observation) {
    exists i, j | 0 <= i < j < |list| :: list[i] == a && list[j] == b
  }

  ghost predicate Inv(s: State) {
    && Numbered(Flat(s.raw), s.callOrder, s.nextOrder)
    && IncreasingRounds(s.raw)
    && Arranged(Flat(s.raw), s.observations)
    && Requested(s)
    && Justified(s)
    && (s.merging.Some? ==> Before(s.observations, s.merging.value.0, s.merging.value.1))
  }

  lemma InitiallyInv()
    ensures Inv(INITIAL)
  {
  }

  // ----- Recording and starting -----

  lemma RecordKeepsInv(s: State, round: int, calls: seq<RawCall>)
    requires Inv(s) && Enabled(s, Record(round, calls))
    ensures Inv(Recorded(s, round, calls))
  {
    var t := Recorded(s, round, calls);
    var flat, r := Flat(s.raw), RawRound(round, calls);
    assert t.raw[..|s.raw|] == s.raw;
    OrderCallsNumbers(flat, s.callOrder, round, calls);
    assert Flat(t.raw) == flat + KeysOf(r);
    forall i | 0 <= i < |s.observations|
      ensures Rank(Flat(t.raw), s.observations[i]) == Rank(flat, s.observations[i])
      ensures Sourced(Flat(t.raw), s.observations[i])
    {
      RankKept(flat, KeysOf(r), s.observations[i]);
    }
    KnownCallsKept(s, round, calls);
  }

  lemma KnownCallsKept(s: State, round: int, calls: seq<RawCall>)
    requires Inv(s) && Enabled(s, Record(round, calls))
    ensures s.callOrder.Keys <= Recorded(s, round, calls).callOrder.Keys
  {
    var flat, t := Flat(s.raw), Recorded(s, round, calls);
    OrderCallsNumbers(flat, s.callOrder, round, calls);
    forall key | key in s.callOrder
      ensures key in t.callOrder
    {
      assert (flat + KeysOf(RawRound(round, calls)))[s.callOrder[key]] == key;
    }
  }

  lemma StartKeepsInv(s: State, key: Key)
    requires Inv(s) && Enabled(s, Start(key))
    ensures Inv(Started(s, key))
  {
    var t := Started(s, key);
    forall id | id in s.positives
      ensures SucceededId(t.outcomes, id)
    {
      var k :| k in s.outcomes && k.1 == id && s.outcomes[k] == Succeeded;
      assert k in t.outcomes && t.outcomes[k] == Succeeded;
    }
  }

  // ----- An Observation request ends -----

  /** With unique identifiers, a call has at most one outcome. */
  lemma OneCallPerId(s: State, a: Key, b: Key)
    requires Inv(s) && a in s.callOrder && b in s.callOrder && a.1 == b.1
    ensures a == b
  {
    var flat := Flat(s.raw);
    var i, j := s.callOrder[a], s.callOrder[b];
    assert flat[i] == a && flat[j] == b;
  }

  lemma OutcomeChangeKeepsSuccesses(s: State, key: Key, status: Status)
    requires Requested(s) && key in s.tasks
    ensures forall id | SucceededId(s.outcomes, id) :: SucceededId(s.outcomes[key := status], id)
  {
    forall id | SucceededId(s.outcomes, id)
      ensures SucceededId(s.outcomes[key := status], id)
    {
      var k :| k in s.outcomes && k.1 == id && s.outcomes[k] == Succeeded;
      assert k != key;
      assert k in s.outcomes[key := status] && s.outcomes[key := status][k] == Succeeded;
    }
  }

  /** A call that is still pending is a source of no retained Observation. */
  lemma PendingIsNoSource(s: State, key: Key)
    requires Inv(s) && key in s.callOrder && (key in s.outcomes ==> s.outcomes[key] != Succeeded)
    ensures key.1 !in ObservedIds(s.observations)
  {
    if key.1 in ObservedIds(s.observations) {
      var k :| k in s.outcomes && k.1 == key.1 && s.outcomes[k] == Succeeded;
      OneCallPerId(s, k, key);
    }
  }

  lemma RefusedKeepsInv(s: State, key: Key, status: Status)
    requires Inv(s) && key in s.tasks && SettledFor(Refused(status), key)
    ensures Inv(Finished(s, key, Refused(status)))
  {
    OutcomeChangeKeepsSuccesses(s, key, status);
  }

  lemma NegativeKeepsInv(s: State, key: Key, o: Observation)
    requires Inv(s) && key in s.tasks && SettledFor(Observed(o), key) && !o.affects
    ensures Inv(Finished(s, key, Observed(o)))
  {
    OutcomeChangeKeepsSuccesses(s, key, Succeeded);
  }

  /** A positive Observation of one call starts at that call. */
  lemma PositiveIsSourced(flat: seq<Key>, order: map<Key, nat>, next: nat, key: Key, o: Observation)
    requires Numbered(flat, order, next) && key in order && SettledFor(Observed(o), key) && o.affects
    ensures Sourced(flat, o) && Rank(flat, o) == order[key]
  {
    assert flat[order[key]] == key;
    EarliestIs(flat, SourceIds(o), order[key]);
  }

  lemma {:induction false} InsertKeepsBefore(list: seq<Observation>, k: nat, o: Observation, a: Observation,
                                             b: Observation)
    requires k <= |list| && Before(list, a, b)
    ensures Before(list[..k] + [o] + list[k..], a, b)
  {
    var l := list[..k] + [o] + list[k..];
    var i, j :| 0 <= i < j < |list| && list[i] == a && list[j] == b;
    var i', j' := if i < k then i else i + 1, if j < k then j else j + 1;
    assert l[i'] == a && l[j'] == b;
  }

  lemma InsertMembers(list: seq<Observation>, k: nat, o: Observation)
    requires k <= |list|
    ensures forall x :: x in list[..k] + [o] + list[k..] <==> x == o || x in list
  {
    assert list == list[..k] + list[k..];
  }

  lemma InsertKeepsDisjoint(list: seq<Observation>, k: nat, o: Observation)
    requires k <= |list| && DisjointSources(list)
    requires forall x | x in list :: SourceIds(x) !! SourceIds(o)
    ensures DisjointSources(list[..k] + [o] + list[k..])
  {
    var l := list[..k] + [o] + list[k..];
    assert forall i | 0 <= i < k :: l[i] == list[i] && l[i] in list;
    assert forall i | k < i < |l| :: l[i] == list[i - 1] && l[i] in list;
    forall i, j | 0 <= i < j < |l|
      ensures SourceIds(l[i]) !! SourceIds(l[j])
    {
      var a, b := if i < k then i else i - 1, if j < k then j else j - 1;
      if i != k && j != k {
        assert l[i] == list[a] && l[j] == list[b];
      }
    }
  }

  lemma InsertObserves(list: seq<Observation>, k: nat, o: Observation)
    requires k <= |list|
    ensures ObservedIds(list[..k] + [o] + list[k..]) == ObservedIds(list) + SourceIds(o)
  {
    InsertMembers(list, k, o);
  }

  /** A positive Observation of a pending call shares no call and no rank with the others. */
  lemma PositiveIsNew(s: State, key: Key, o: Observation)
    requires Inv(s) && key in s.tasks && SettledFor(Observed(o), key) && o.affects
    ensures forall x | x in s.observations :: SourceIds(x) !! SourceIds(o)
    ensures forall i | 0 <= i < |s.observations| :: Rank(Flat(s.raw), s.observations[i]) != Rank(Flat(s.raw), o)
  {
    var flat := Flat(s.raw);
    PositiveIsSourced(flat, s.callOrder, s.nextOrder, key, o);
    PendingIsNoSource(s, key);
    forall i | 0 <= i < |s.observations|
      ensures Rank(flat, s.observations[i]) != Rank(flat, o)
    {
      assert s.observations[i] in s.observations;
      assert flat[Rank(flat, s.observations[i])].1 in SourceIds(s.observations[i]);
    }
  }

  lemma PositiveIsJustified(s: State, key: Key)
    requires Requested(s) && Justified(s) && key in s.tasks
    ensures var outcomes := s.outcomes[key := Succeeded];
      forall id | id in s.positives + {key.1} :: SucceededId(outcomes, id)
  {
    var outcomes := s.outcomes[key := Succeeded];
    OutcomeChangeKeepsSuccesses(s, key, Succeeded);
    assert key in outcomes && outcomes[key] == Succeeded;
  }

  lemma InsertKeepsSourced(flat: seq<Key>, list: seq<Observation>, k: nat, o: Observation)
    requires k <= |list| && AllSourced(flat, list) && Sourced(flat, o)
    ensures AllSourced(flat, list[..k] + [o] + list[k..])
  {
    var l := list[..k] + [o] + list[k..];
    forall i | 0 <= i < |l|
      ensures Sourced(flat, l[i])
    {
      if i < k {
        assert l[i] == list[i];
      } else if i > k {
        assert l[i] == list[i - 1];
      }
    }
  }

  /** The list after a positive Observation has been sorted in */
  lemma PositiveArrives(s: State, key: Key, o: Observation) returns (k: nat)
    requires Inv(s) && key in s.tasks && SettledFor(Observed(o), key) && o.affects
    ensures k <= |s.observations|
    ensures Finished(s, key, Observed(o)).observations == s.observations[..k] + [o] + s.observations[k..]
    ensures Arranged(Flat(s.raw), s.observations[..k] + [o] + s.observations[k..])
  {
    var flat := Flat(s.raw);
    PositiveIsSourced(flat, s.callOrder, s.nextOrder, key, o);
    PositiveIsNew(s, key, o);
    k := SortAppended(flat, s.callOrder, s.nextOrder, s.observations, o);
    InsertKeepsDisjoint(s.observations, k, o);
    InsertKeepsSourced(flat, s.observations, k, o);
    assert Finished(s, key, Observed(o)).observations
        == SortByOrder(s.callOrder, s.nextOrder, s.observations + [o]);
  }

  lemma PositiveKeepsInv(s: State, key: Key, o: Observation)
    requires Inv(s) && key in s.tasks && SettledFor(Observed(o), key) && o.affects
    ensures Inv(Finished(s, key, Observed(o)))
    ensures ObservedIds(Finished(s, key, Observed(o)).observations) == ObservedIds(s.observations) + {key.1}
  {
    var t := Finished(s, key, Observed(o));
    var k := PositiveArrives(s, key, o);
    InsertObserves(s.observations, k, o);
    PositiveIsJustified(s, key);
    if s.merging.Some? {
      InsertKeepsBefore(s.observations, k, o, s.merging.value.0, s.merging.value.1);
    }
    assert Requested(t) && Justified(t);
  }

  lemma FinishKeepsInv(s: State, key: Key, settled: Settled)
    requires Inv(s) && SettledFor(settled, key)
    ensures Inv(Finished(s, key, settled))
  {
    if key in s.tasks {
      match settled
      case Refused(status) => RefusedKeepsInv(s, key, status);
      case Observed(o) =>
        if o.affects {
          PositiveKeepsInv(s, key, o);
        } else {
          NegativeKeepsInv(s, key, o);
        }
    }
  }

  // ----- A merge reply arrives -----

  lemma {:induction false} IndexInOrder(flat: seq<Key>, list: seq<Observation>, i: nat)
    requires InOrder(flat, list) && i < |list|
    ensures IndexOf(list, list[i]) == i
  {
    var k := IndexOf(list, list[i]);
    assert list[k] == list[i];
  }

  /** Both merged Observations are found, in order. */
  lemma MergedPositions(s: State) returns (i: nat, j: nat)
    requires Inv(s) && s.merging.Some?
    ensures i < j < |s.observations| && Held(s)
    ensures s.observations[i] == s.merging.value.0 && IndexOf(s.observations, s.merging.value.0) == i
    ensures s.observations[j] == s.merging.value.1 && IndexOf(s.observations, s.merging.value.1) == j
  {
    var (a, b) := s.merging.value;
    i, j :| 0 <= i < j < |s.observations| && s.observations[i] == a && s.observations[j] == b;
    IndexInOrder(Flat(s.raw), s.observations, i);
    IndexInOrder(Flat(s.raw), s.observations, j);
  }

  /** The merged Observation unites sources, targets and impact, and starts where the first
      of the two starts. */
  lemma MergedShape(first: Observation, second: Observation, reply: MergeReply)
    requires MergeOf(first, second, reply).Some? && SourceRound(first) != 0
    ensures var m := MergeOf(first, second, reply).value;
      && SourceIds(m) == SourceIds(reply.observation) >= SourceIds(first) + SourceIds(second)
      && (NamesOnlySources(reply, first, second) ==> SourceIds(m) == SourceIds(first) + SourceIds(second))
      && SourceRound(m) == SourceRound(first)
      && m.affects == (first.affects || second.affects)
      && (forall t :: t in m.targets <==> t in first.targets || t in second.targets)
      && Lists.NoDuplicates(m.targets)
  {
    var m := MergeOf(first, second, reply).value;
    assert SourceList(m) == SourceList(reply.observation);
    Lists.AppendUniqueExtends([], first.targets + second.targets);
  }

  lemma MergedRank(flat: seq<Key>, first: Observation, second: Observation, m: Observation)
    requires Sourced(flat, first) && Sourced(flat, second) && Rank(flat, first) < Rank(flat, second)
    requires SourceIds(m) == SourceIds(first) + SourceIds(second) && SourceRound(m) == SourceRound(first)
    ensures Rank(flat, m) == Rank(flat, first) && Sourced(flat, m)
  {
    var e := Rank(flat, first);
    assert forall k | 0 <= k < e :: flat[k].1 !in SourceIds(first) && flat[k].1 !in SourceIds(second);
    EarliestIs(flat, SourceIds(m), e);
  }

  /** Where the elements of a spliced list come from */
  lemma SpliceElements(list: seq<Observation>, i: nat, j: nat, m: Observation)
    requires i <= j < |list|
    ensures var l := Splice(list, i, j, m);
      && |l| == |list| - (j - i)
      && l[i] == m
      && (forall k | 0 <= k < i :: l[k] == list[k])
      && (forall k | i < k < |l| :: l[k] == list[k + (j - i)])
  {
  }

  lemma SpliceArranged(flat: seq<Key>, list: seq<Observation>, i: nat, j: nat, m: Observation)
    requires Arranged(flat, list) && i < j < |list|
    requires SourceIds(m) == SourceIds(list[i]) + SourceIds(list[j])
    requires Rank(flat, m) == Rank(flat, list[i]) && Sourced(flat, m)
    ensures Arranged(flat, Splice(list, i, j, m))
  {
    SpliceSourced(flat, list, i, j, m);
    SpliceInOrder(flat, list, i, j, m);
    SpliceDisjoint(list, i, j, m);
  }

  lemma SpliceSourced(flat: seq<Key>, list: seq<Observation>, i: nat, j: nat, m: Observation)
    requires AllSourced(flat, list) && i < j < |list| && Sourced(flat, m)
    ensures AllSourced(flat, Splice(list, i, j, m))
  {
    var l := Splice(list, i, j, m);
    SpliceElements(list, i, j, m);
    forall k | 0 <= k < |l|
      ensures Sourced(flat, l[k])
    {
      assert k != i ==> l[k] == list[if k < i then k else k + (j - i)];
    }
  }

  lemma SpliceInOrder(flat: seq<Key>, list: seq<Observation>, i: nat, j: nat, m: Observation)
    requires InOrder(flat, list) && i < j < |list| && Rank(flat, m) == Rank(flat, list[i])
    ensures InOrder(flat, Splice(list, i, j, m))
  {
    var l := Splice(list, i, j, m);
    SpliceElements(list, i, j, m);
    forall a, b | 0 <= a < b < |l|
      ensures Rank(flat, l[a]) < Rank(flat, l[b])
    {
      assert Rank(flat, l[a]) == Rank(flat, list[if a <= i then a else a + (j - i)]);
      assert Rank(flat, l[b]) == Rank(flat, list[if b <= i then b else b + (j - i)]);
    }
  }

  lemma SpliceDisjoint(list: seq<Observation>, i: nat, j: nat, m: Observation)
    requires DisjointSources(list) && i < j < |list|
    requires SourceIds(m) == SourceIds(list[i]) + SourceIds(list[j])
    ensures DisjointSources(Splice(list, i, j, m))
  {
    var l := Splice(list, i, j, m);
    SpliceElements(list, i, j, m);
    forall a, b | 0 <= a < b < |l|
      ensures SourceIds(l[a]) !! SourceIds(l[b])
    {
      SplicePair(list, i, j, if a <= i then a else a + (j - i), if b <= i then b else b + (j - i));
    }
  }

  /** Two Observations of the old list that survive or are merged, seen after the merge */
  lemma SplicePair(list: seq<Observation>, i: nat, j: nat, a: nat, b: nat)
    requires DisjointSources(list) && i < j < |list|
    requires a < b < |list| && (a <= i || j < a) && (b <= i || j < b)
    ensures SourceIds(list[a]) !! SourceIds(list[b])
    ensures a == i ==> SourceIds(list[j]) !! SourceIds(list[b])
    ensures b == i ==> SourceIds(list[a]) !! SourceIds(list[j])
  {
  }

  /** Calls observed after a splice: those of the merged Observation and of all Observations
      outside the replaced stretch. */
  lemma SpliceObserves(list: seq<Observation>, i: nat, j: nat, m: Observation)
    requires i < j < |list| && SourceIds(list[i]) + SourceIds(list[j]) <= SourceIds(m)
    ensures ObservedIds(Splice(list, i, j, m)) + ObservedIds(list[i + 1..j]) == ObservedIds(list) + SourceIds(m)
    ensures ObservedIds(Splice(list, i, j, m)) <= ObservedIds(list) + SourceIds(m)
    ensures SourceIds(m) <= ObservedIds(Splice(list, i, j, m))
  {
    var l, mid := Splice(list, i, j, m), list[i + 1..j];
    assert list == list[..i] + [list[i]] + mid + [list[j]] + list[j + 1..];
    assert l == list[..i] + [m] + list[j + 1..];
    assert m in l;
    forall o | o in list
      ensures o in l || o in mid || o == list[i] || o == list[j]
    {
    }
    forall o | o in l
      ensures o in list || o == m
    {
    }
    forall o | o in mid
      ensures o in list
    {
    }
  }

  /** An accepted reply replaces the stretch between the two Observations. */
  lemma ReceivedForm(s: State, reply: MergeReply) returns (i: nat, j: nat, m: Observation)
    requires Inv(s) && s.merging.Some?
    requires MergeOf(s.merging.value.0, s.merging.value.1, reply).Some?
    ensures i < j < |s.observations| && Held(s)
    ensures s.observations[i] == s.merging.value.0 && s.observations[j] == s.merging.value.1
    ensures m == MergeOf(s.observations[i], s.observations[j], reply).value
    ensures Received(s, reply) == s.(merging := None, observations := Splice(s.observations, i, j, m))
  {
    i, j := MergedPositions(s);
    m := MergeOf(s.observations[i], s.observations[j], reply).value;
  }

  lemma MergedIsSourced(s: State, i: nat, j: nat, reply: MergeReply)
    requires Inv(s) && i < j < |s.observations|
    requires MergeOf(s.observations[i], s.observations[j], reply).Some?
    requires NamesOnlySources(reply, s.observations[i], s.observations[j])
    ensures var m := MergeOf(s.observations[i], s.observations[j], reply).value;
      && SourceIds(m) == SourceIds(s.observations[i]) + SourceIds(s.observations[j])
      && Sourced(Flat(s.raw), m) && Rank(Flat(s.raw), m) == Rank(Flat(s.raw), s.observations[i])
  {
    var flat, first, second := Flat(s.raw), s.observations[i], s.observations[j];
    assert Sourced(flat, first) && Sourced(flat, second) && Rank(flat, first) < Rank(flat, second);
    MergedShape(first, second, reply);
    MergedRank(flat, first, second, MergeOf(first, second, reply).value);
  }

  lemma SplicedInv(s: State, list: seq<Observation>)
    requires Inv(s) && Arranged(Flat(s.raw), list) && ObservedIds(list) <= ObservedIds(s.observations)
    ensures Inv(s.(merging := None, observations := list))
  {
  }

  lemma SpliceAddsNothing(list: seq<Observation>, i: nat, j: nat, m: Observation)
    requires i < j < |list| && SourceIds(m) == SourceIds(list[i]) + SourceIds(list[j])
    ensures ObservedIds(Splice(list, i, j, m)) <= ObservedIds(list)
  {
    SpliceObserves(list, i, j, m);
    assert list[i] in list && list[j] in list;
  }

  lemma ReceiveKeepsInv(s: State, reply: MergeReply)
    requires Inv(s) && Enabled(s, Receive(reply))
    ensures Inv(Received(s, reply))
  {
    if MergeOf(s.merging.value.0, s.merging.value.1, reply).Some? {
      var i, j, m := ReceivedForm(s, reply);
      MergedIsSourced(s, i, j, reply);
      SpliceArranged(Flat(s.raw), s.observations, i, j, m);
      SpliceAddsNothing(s.observations, i, j, m);
      SplicedInv(s, Splice(s.observations, i, j, m));
    }
  }

  // ----- Runs -----

  lemma StepKeepsInv(s: State, e: Event)
    requires Inv(s) && Enabled(s, e)
    ensures Inv(Step(s, e))
  {
    match e
    case Record(round, calls) => RecordKeepsInv(s, round, calls);
    case Start(key) => StartKeepsInv(s, key);
    case Finish(key, settled) => FinishKeepsInv(s, key, settled);
    case Send => assert s.observations[0] == Step(s, e).merging.value.0;
    case Receive(reply) => ReceiveKeepsInv(s, reply);
  }

  /** `events` can happen one after the other from `s`. */
  predicate Possible(s: State, events: seq<Event>)
    decreases |events|
  {
    events == [] || (Enabled(s, events[0]) && Possible(Step(s, events[0]), events[1..]))
  }

  function Run(s: State, events: seq<Event>): State
    requires Possible(s, events)
    decreases |events|
  {
    if events == [] then s else Run(Step(s, events[0]), events[1..])
  }

  lemma {:induction false} RunKeepsInv(s: State, events: seq<Event>)
    requires Inv(s) && Possible(s, events)
    ensures Inv(Run(s, events))
    decreases |events|
  {
    if events != [] {
      StepKeepsInv(s, events[0]);
      RunKeepsInv(Step(s, events[0]), events[1..]);
    }
  }

  lemma {:induction false} RunAppend(s: State, events: seq<Event>, e: Event)
    requires Possible(s, events) && Enabled(Run(s, events), e)
    ensures Possible(s, events + [e]) && Run(s, events + [e]) == Step(Run(s, events), e)
    decreases |events|
  {
    if events == [] {
      assert [e][1..] == [];
    } else {
      assert (events + [e])[1..] == events[1..] + [e];
      RunAppend(Step(s, events[0]), events[1..], e);
    }
  }

  lemma RunCons(s: State, e: Event, events: seq<Event>)
    requires Enabled(s, e) && Possible(Step(s, e), events)
    ensures Possible(s, [e] + events) && Run(s, [e] + events) == Run(Step(s, e), events)
  {
    assert ([e] + events)[1..] == events;
  }

  /** The events can happen from `s` and lead to `t`. */
  ghost predicate Leads(s: State, events: seq<Event>, t: State) {
    Possible(s, events) && Run(s, events) == t
  }

  lemma LeadsHead(s: State, events: seq<Event>, t: State)
    requires Leads(s, events, t) && events != []
    ensures Enabled(s, events[0]) && Leads(Step(s, events[0]), events[1..], t)
  {
  }

  lemma LeadsCons(s: State, e: Event, events: seq<Event>, t: State)
    requires Enabled(s, e) && Leads(Step(s, e), events, t)
    ensures Leads(s, [e] + events, t)
  {
    RunCons(s, e, events);
  }

  lemma {:induction false} LeadsOn(s: State, a: seq<Event>, t: State, b: seq<Event>, u: State)
    requires Leads(s, a, t) && Leads(t, b, u)
    ensures Leads(s, a + b, u)
    decreases |a|
  {
    if a == [] {
      assert a + b == b;
    } else {
      LeadsHead(s, a, t);
      LeadsOn(Step(s, a[0]), a[1..], t, b, u);
      LeadsCons(s, a[0], a[1..] + b, u);
      assert [a[0]] + (a[1..] + b) == a + b;
    }
  }

  lemma RunConcat(s: State, a: seq<Event>, b: seq<Event>)
    requires Possible(s, a) && Possible(Run(s, a), b)
    ensures Possible(s, a + b) && Run(s, a + b) == Run(Run(s, a), b)
  {
    LeadsOn(s, a, Run(s, a), b, Run(Run(s, a), b));
  }
}

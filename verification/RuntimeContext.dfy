/** The runtime-context policy as a step machine: settled tool rounds are recorded, one
    Observation request per write-class call settles in any order, and neighbouring
    Observations are merged. */
module RuntimeContext {
  import opened Text
  import opened Observations
  import opened Lists

  /** A call of one round */
  type Key = (int, string)

  datatype Status = Pending | Succeeded | ProviderError | Invalid | Cancelled

  /** How one Observation request ends */
  datatype Settled = Observed(observation: Observation) | Refused(status: Status)

  /** What a merge request brings back: a parsed Observation, or nothing usable */
  datatype MergeReply = Merged(observation: Observation) | NoMerge

  /** `positives` is a history of the calls whose Observation succeeded with positive impact;
      `merging` holds the two Observations of a merge request in flight. */
  datatype State = State(
    raw: seq<RawRound>, observations: seq<Observation>, outcomes: map<Key, Status>, tasks: multiset<Key>,
    callOrder: map<Key, nat>, nextOrder: nat,
    merging: Option<(Observation, Observation)>, positives: set<string>)

  const INITIAL := State([], [], map[], multiset{}, map[], 0, None, {})

  // ----- Request order -----

  /** `_call_order` after numbering `calls` from `next` on */
  function OrderCalls(order: map<Key, nat>, next: nat, round: int, calls: seq<RawCall>): map<Key, nat> {
    if calls == [] then order
    else
      var n := |calls| - 1;
      OrderCalls(order, next, round, calls[..n])[(round, calls[n].id) := next + n]
  }

  /** The smallest number among `ids`; calls unknown in that round count as `next`. */
  function MinOrder(order: map<Key, nat>, next: nat, round: int, ids: seq<string>): nat {
    if ids == [] then next
    else
      var key := (round, ids[0]);
      var first := if key in order then order[key] else next;
      var rest := MinOrder(order, next, round, ids[1..]);
      if |ids| == 1 || first <= rest then first else rest
  }

  /** Sort key of an Observation */
  function OrderKey(order: map<Key, nat>, next: nat, o: Observation): (nat, int) {
    (MinOrder(order, next, SourceRound(o), SourceList(o)), SourceRound(o))
  }

  predicate KeyAtMost(a: (nat, int), b: (nat, int)) {
    a.0 < b.0 || (a.0 == b.0 && a.1 <= b.1)
  }

  /** Stable sort by request order */
  function SortByOrder(order: map<Key, nat>, next: nat, list: seq<Observation>): seq<Observation> {
    StableSort(list, ByOrder(order, next))
  }

  function ByOrder(order: map<Key, nat>, next: nat): (Observation, Observation) -> bool {
    (a, b) => KeyAtMost(OrderKey(order, next, a), OrderKey(order, next, b))
  }

  // ----- Steps -----

  function Recorded(s: State, round: int, calls: seq<RawCall>): State {
    s.(raw := s.raw + [RawRound(round, calls)],
       callOrder := OrderCalls(s.callOrder, s.nextOrder, round, calls),
       nextOrder := s.nextOrder + |calls|)
  }

  function Started(s: State, key: Key): State {
    s.(outcomes := s.outcomes[key := Pending], tasks := s.tasks + multiset{key})
  }

  /** An Observation request ends; an end that no task waits for changes nothing. */
  function Finished(s: State, key: Key, settled: Settled): State {
    if key !in s.tasks then s
    else
      var t := s.(tasks := s.tasks - multiset{key});
      match settled
      case Refused(status) => t.(outcomes := t.outcomes[key := status])
      case Observed(o) =>
        var u := t.(outcomes := t.outcomes[key := Succeeded]);
        if !o.affects then u
        else u.(observations := SortByOrder(s.callOrder, s.nextOrder, s.observations + [o]),
                positives := s.positives + {key.1})
  }

  /** First occurrence, as `list.index` finds it */
  function IndexOf(list: seq<Observation>, o: Observation): (i: nat)
    requires o in list
    ensures i < |list| && list[i] == o && o !in list[..i]
  {
    if list[0] == o then 0 else 1 + IndexOf(list[1..], o)
  }

  /** `list[i : j + 1] = [merged]` */
  function Splice(list: seq<Observation>, i: nat, j: nat, merged: Observation): seq<Observation>
    requires i <= |list| && j < |list|
  {
    list[..i] + [merged] + list[if i <= j + 1 then j + 1 else i..]
  }

  /** The Observation that replaces `first` and `second`, unless the reply lost a source */
  function MergeOf(first: Observation, second: Observation, reply: MergeReply): Option<Observation> {
    match reply
    case NoMerge => None
    case Merged(o) =>
      if !(SourceIds(first) + SourceIds(second) <= SourceIds(o)) then None
      else Some(Observation(
        o.round, o.confirmed, o.errors, o.inferences, first.affects || second.affects,
        AppendUnique([], first.targets + second.targets),
        Some(SourceRound(first)), Some(OrElse(second.end, second.round))))
  }

  /** The reply of a merge request arrives. */
  function Received(s: State, reply: MergeReply): State
    requires s.merging.Some? && s.merging.value.0 in s.observations && s.merging.value.1 in s.observations
  {
    var (first, second) := s.merging.value;
    match MergeOf(first, second, reply)
    case None => s.(merging := None)
    case Some(m) =>
      var i, j := IndexOf(s.observations, first), IndexOf(s.observations, second);
      s.(merging := None, observations := Splice(s.observations, i, j, m))
  }

  // ----- The assembled window -----

  function LastRounds(raw: seq<RawRound>, n: nat): set<int> {
    var recent := if |raw| <= n then raw else raw[|raw| - n..];
    set r | r in recent :: r.round
  }

  function ObservedIds(observations: seq<Observation>): set<string> {
    set o, id | o in observations && id in SourceIds(o) :: id
  }

  function NegativeIds(outcomes: map<Key, Status>, observed: set<string>): set<string> {
    set key | key in outcomes && outcomes[key] == Succeeded && key.1 !in observed :: key.1
  }

  /** What decides visibility, computed once per window */
  datatype Filter = Filter(current: set<int>, recent: set<int>, observed: set<string>, negative: set<string>)

  function FilterOf(raw: seq<RawRound>, observations: seq<Observation>, outcomes: map<Key, Status>, rawRounds: nat)
    : Filter
  {
    var observed := ObservedIds(observations);
    Filter(LastRounds(raw, 1), LastRounds(raw, rawRounds), observed, NegativeIds(outcomes, observed))
  }

  predicate IsVisible(f: Filter, round: int, call: RawCall) {
    match call.lifecycle
    case CurrentRaw => round in f.current
    case RecentRaw => round in f.recent
    case PermanentRaw => true
    case ObservationClass => call.id !in f.observed && (call.id !in f.negative || round in f.recent)
  }

  function VisibleCalls(f: Filter, round: int, calls: seq<RawCall>): seq<RawCall> {
    if calls == [] then []
    else
      var n := |calls| - 1;
      VisibleCalls(f, round, calls[..n]) + if IsVisible(f, round, calls[n]) then [calls[n]] else []
  }

  function VisibleRounds(f: Filter, raw: seq<RawRound>): seq<RawRound> {
    if raw == [] then []
    else
      var n := |raw| - 1;
      var calls := VisibleCalls(f, raw[n].round, raw[n].calls);
      VisibleRounds(f, raw[..n]) + if calls == [] then [] else [RawRound(raw[n].round, calls)]
  }

  datatype Context = Context(observations: seq<Observation>, raw: seq<RawRound>)

  predicate Visible(s: State, rawRounds: nat, round: int, call: RawCall) {
    IsVisible(FilterOf(s.raw, s.observations, s.outcomes, rawRounds), round, call)
  }

  function Assemble(s: State, rawRounds: nat): Context {
    Context(s.observations, VisibleRounds(FilterOf(s.raw, s.observations, s.outcomes, rawRounds), s.raw))
  }

  predicate Shows(c: Context, round: int, call: RawCall) {
    exists r | r in c.raw :: r.round == round && call in r.calls
  }

  lemma {:induction false} VisibleCallsMembers(f: Filter, round: int, calls: seq<RawCall>)
    ensures forall c :: c in VisibleCalls(f, round, calls) <==> c in calls && IsVisible(f, round, c)
  {
    if calls != [] {
      var n := |calls| - 1;
      VisibleCallsMembers(f, round, calls[..n]);
      assert calls == calls[..n] + [calls[n]];
    }
  }

  lemma {:induction false} VisibleRoundsMembers(f: Filter, raw: seq<RawRound>, round: int, call: RawCall)
    ensures (exists r | r in VisibleRounds(f, raw) :: r.round == round && call in r.calls)
      <==> IsVisible(f, round, call) && exists r | r in raw :: r.round == round && call in r.calls
  {
    if raw != [] {
      var n := |raw| - 1;
      var last := raw[n];
      var calls := VisibleCalls(f, last.round, last.calls);
      VisibleRoundsMembers(f, raw[..n], round, call);
      VisibleCallsMembers(f, last.round, last.calls);
      assert raw == raw[..n] + [last];
      assert call in calls ==> calls != [];
      if last.round == round && call in calls {
        assert RawRound(last.round, calls) in VisibleRounds(f, raw);
      }
    }
  }

  /** A window shows exactly the recorded calls that are visible. */
  lemma WindowShows(s: State, rawRounds: nat, round: int, call: RawCall)
    ensures Shows(Assemble(s, rawRounds), round, call)
      <==> Visible(s, rawRounds, round, call) && exists r | r in s.raw :: r.round == round && call in r.calls
  {
    VisibleRoundsMembers(FilterOf(s.raw, s.observations, s.outcomes, rawRounds), s.raw, round, call);
  }
}

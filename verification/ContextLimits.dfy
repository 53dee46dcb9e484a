/** What the runtime context does not promise: an Observation that arrives between two others while they are merged
    is lost, and merging Observations of calls that share an identifier may make no progress. */
module ContextLimits {
  import opened Text
  import opened Observations
  import opened RuntimeContext
  import opened ContextInvariants
  import Lists

  // ----- A late arrival -----

  function Note(round: int, id: string): Observation {
    Observation(round, [Evidence("done", [id])], [], [], true, ["summary"], None, None)
  }

  function Write(id: string): RawCall {
    RawCall(id, "write_file", None, OtherResult(0), None, ObservationClass)
  }

  /** What a merge of the Observations of `a` and `c` brings back */
  function Union(a: string, c: string): Observation {
    Observation(1, [Evidence("done", [a, c])], [], [], true, ["summary"], Some(1), Some(1))
  }

  /** Three calls of one round; the Observations of `a` and `c` are being merged when that of `b` arrives. */
  function LateRun(a: string, b: string, c: string): seq<Event> {
    [Record(1, [Write(a), Write(b), Write(c)]), Start((1, a)), Start((1, b)), Start((1, c)),
     Finish((1, a), Observed(Note(1, a))), Finish((1, c), Observed(Note(1, c))), Send,
     Finish((1, b), Observed(Note(1, b))), Receive(Merged(Union(a, c)))]
  }

  predicate Different(a: string, b: string, c: string) {
    a != b && b != c && a != c
  }

  lemma NoteSources(id: string)
    ensures SourceList(Note(1, id)) == [id] && SourceIds(Note(1, id)) == {id}
    ensures SettledFor(Observed(Note(1, id)), (1, id)) && Note(1, id).affects
  {
    assert Note(1, id).confirmed[1..] == [];
  }

  /** The three calls are numbered in the order of the batch. */
  ghost predicate ThreeCalls(s: State, a: string, b: string, c: string) {
    && s.nextOrder == 3
    && (1, a) in s.callOrder && s.callOrder[(1, a)] == 0
    && (1, b) in s.callOrder && s.callOrder[(1, b)] == 1
    && (1, c) in s.callOrder && s.callOrder[(1, c)] == 2
  }

  /** Which requests are in flight, and the list of Observations */
  ghost predicate Stands(s: State, a: string, b: string, c: string, open: set<string>, list: seq<Observation>) {
    && ThreeCalls(s, a, b, c)
    && (forall id | id in open :: (1, id) in s.tasks)
    && s.observations == list
  }

  lemma BatchIsFresh(a: string, b: string, c: string)
    requires Different(a, b, c)
    ensures Enabled(INITIAL, Record(1, [Write(a), Write(b), Write(c)]))
  {
  }

  lemma BatchIsNumbered(a: string, b: string, c: string)
    requires Different(a, b, c)
    ensures var s := Recorded(INITIAL, 1, [Write(a), Write(b), Write(c)]);
      Stands(s, a, b, c, {}, []) && s.outcomes == map[] && s.merging.None?
  {
    var x, y, z := Write(a), Write(b), Write(c);
    assert [x, y, z][..2] == [x, y] && [x, y][..1] == [x] && [x][..0] == [];
    assert OrderCalls(map[], 0, 1, [x]) == map[(1, a) := 0];
    assert OrderCalls(map[], 0, 1, [x, y]) == map[(1, a) := 0][(1, b) := 1];
    assert OrderCalls(map[], 0, 1, [x, y, z]) == map[(1, a) := 0][(1, b) := 1][(1, c) := 2];
  }

  lemma CallIsStarted(s: State, a: string, b: string, c: string, open: set<string>, id: string)
    requires Stands(s, a, b, c, open, []) && id in {a, b, c} && (1, id) !in s.outcomes
    ensures Enabled(s, Start((1, id))) && Stands(Started(s, (1, id)), a, b, c, open + {id}, [])
  {
  }

  lemma NoteOrder(s: State, a: string, b: string, c: string, id: string)
    requires ThreeCalls(s, a, b, c) && id in {a, b, c}
    ensures OrderKey(s.callOrder, s.nextOrder, Note(1, id)) == (s.callOrder[(1, id)], 1)
  {
    NoteSources(id);
  }

  /** A finished request sorts its Observation in at `k`. */
  lemma NoteArrives(s: State, a: string, b: string, c: string, open: set<string>, list: seq<Observation>, id: string,
                    k: nat)
    requires Stands(s, a, b, c, open, list) && id in open && id in {a, b, c} && k <= |list|
    requires Lists.StrictlySorted(list, ByOrder(s.callOrder, s.nextOrder))
    requires Lists.Separates(list, k, Note(1, id), ByOrder(s.callOrder, s.nextOrder))
    ensures Enabled(s, Finish((1, id), Observed(Note(1, id))))
    ensures var t := Finished(s, (1, id), Observed(Note(1, id)));
      && Stands(t, a, b, c, open - {id}, list[..k] + [Note(1, id)] + list[k..])
      && id in t.positives && t.merging == s.merging
  {
    NoteSources(id);
    Lists.SortAppended(list, k, Note(1, id), ByOrder(s.callOrder, s.nextOrder));
  }

  lemma FirstArrives(s: State, a: string, b: string, c: string)
    requires Different(a, b, c) && Stands(s, a, b, c, {a, b, c}, [])
    ensures Enabled(s, Finish((1, a), Observed(Note(1, a))))
    ensures var t := Finished(s, (1, a), Observed(Note(1, a)));
      Stands(t, a, b, c, {b, c}, [Note(1, a)]) && t.merging == s.merging
  {
    var none: seq<Observation> := [];
    NoteArrives(s, a, b, c, {a, b, c}, none, a, 0);
    assert {a, b, c} - {a} == {b, c};
    assert none[..0] + [Note(1, a)] + none[0..] == [Note(1, a)];
  }

  lemma ThirdArrives(s: State, a: string, b: string, c: string)
    requires Different(a, b, c) && Stands(s, a, b, c, {b, c}, [Note(1, a)])
    ensures Enabled(s, Finish((1, c), Observed(Note(1, c))))
    ensures var t := Finished(s, (1, c), Observed(Note(1, c)));
      Stands(t, a, b, c, {b}, [Note(1, a), Note(1, c)]) && t.merging == s.merging
  {
    NoteOrder(s, a, b, c, a);
    NoteOrder(s, a, b, c, c);
    NoteArrives(s, a, b, c, {b, c}, [Note(1, a)], c, 1);
    assert {b, c} - {c} == {b};
    assert [Note(1, a)][..1] + [Note(1, c)] + [Note(1, a)][1..] == [Note(1, a), Note(1, c)];
  }

  lemma SecondArrives(s: State, a: string, b: string, c: string)
    requires Different(a, b, c) && Stands(s, a, b, c, {b}, [Note(1, a), Note(1, c)])
    ensures Enabled(s, Finish((1, b), Observed(Note(1, b))))
    ensures var t := Finished(s, (1, b), Observed(Note(1, b)));
      && Stands(t, a, b, c, {}, [Note(1, a), Note(1, b), Note(1, c)])
      && b in t.positives && t.merging == s.merging
  {
    NoteOrder(s, a, b, c, a);
    NoteOrder(s, a, b, c, b);
    NoteOrder(s, a, b, c, c);
    var list := [Note(1, a), Note(1, c)];
    NoteArrives(s, a, b, c, {b}, list, b, 1);
    assert {b} - {b} == {};
    assert list[..1] + [Note(1, b)] + list[1..] == [Note(1, a), Note(1, b), Note(1, c)];
  }

  lemma UnionMerges(a: string, c: string)
    ensures SourceIds(Union(a, c)) == {a, c} && NamesOnlySources(Merged(Union(a, c)), Note(1, a), Note(1, c))
    ensures var m := MergeOf(Note(1, a), Note(1, c), Merged(Union(a, c))); m.Some? && SourceIds(m.value) == {a, c}
  {
    NoteSources(a);
    NoteSources(c);
    assert IdsOf(Union(a, c).confirmed) == [a, c] by {
      assert Union(a, c).confirmed[1..] == [];
    }
    assert SourceList(Union(a, c)) == [a, c];
    var m := MergeOf(Note(1, a), Note(1, c), Merged(Union(a, c))).value;
    assert SourceList(m) == [a, c];
  }

  lemma UnionSwallows(s: State, a: string, b: string, c: string)
    requires Different(a, b, c) && s.observations == [Note(1, a), Note(1, b), Note(1, c)]
    requires s.merging == Some((Note(1, a), Note(1, c)))
    ensures Enabled(s, Receive(Merged(Union(a, c))))
    ensures var t := Received(s, Merged(Union(a, c))); t.positives == s.positives && b !in ObservedIds(t.observations)
  {
    UnionMerges(a, c);
    NoteSources(a);
    NoteSources(b);
    NoteSources(c);
    var list := s.observations;
    assert list[0] == Note(1, a) && list[2] == Note(1, c);
    assert IndexOf(list, Note(1, a)) == 0 && IndexOf(list, Note(1, c)) == 2;
    var m := MergeOf(Note(1, a), Note(1, c), Merged(Union(a, c))).value;
    assert Splice(list, 0, 2, m) == [m];
  }

  lemma Further(events: seq<Event>, s: State, e: Event)
    requires Leads(INITIAL, events, s) && Enabled(s, e)
    ensures Leads(INITIAL, events + [e], Step(s, e))
  {
    RunAppend(INITIAL, events, e);
  }

  /** All three calls are recorded and their requests are started. */
  lemma AllStarted(a: string, b: string, c: string) returns (events: seq<Event>, s: State)
    requires Different(a, b, c)
    ensures Leads(INITIAL, events, s) && Stands(s, a, b, c, {a, b, c}, []) && s.merging.None?
    ensures events == [Record(1, [Write(a), Write(b), Write(c)]), Start((1, a)), Start((1, b)), Start((1, c))]
  {
    BatchIsFresh(a, b, c);
    BatchIsNumbered(a, b, c);
    var batch := Record(1, [Write(a), Write(b), Write(c)]);
    events, s := [], INITIAL;
    Further(events, s, batch);
    events, s := events + [batch], Step(s, batch);
    CallIsStarted(s, a, b, c, {}, a);
    Further(events, s, Start((1, a)));
    events, s := events + [Start((1, a))], Started(s, (1, a));
    CallIsStarted(s, a, b, c, {} + {a}, b);
    Further(events, s, Start((1, b)));
    events, s := events + [Start((1, b))], Started(s, (1, b));
    CallIsStarted(s, a, b, c, {} + {a} + {b}, c);
    Further(events, s, Start((1, c)));
    events, s := events + [Start((1, c))], Started(s, (1, c));
    assert {} + {a} + {b} + {c} == {a, b, c};
  }

  /** The Observation of `a` arrives. */
  lemma FirstIsObserved(a: string, b: string, c: string, before: seq<Event>, start: State) returns (s: State)
    requires Different(a, b, c)
    requires Leads(INITIAL, before, start) && Stands(start, a, b, c, {a, b, c}, []) && start.merging.None?
    ensures Leads(INITIAL, before + [Finish((1, a), Observed(Note(1, a)))], s)
    ensures Stands(s, a, b, c, {b, c}, [Note(1, a)]) && s.merging.None?
  {
    FirstArrives(start, a, b, c);
    Further(before, start, Finish((1, a), Observed(Note(1, a))));
    s := Finished(start, (1, a), Observed(Note(1, a)));
  }

  /** The Observation of `c` arrives. */
  lemma ThirdIsObserved(a: string, b: string, c: string, before: seq<Event>, start: State) returns (s: State)
    requires Different(a, b, c)
    requires Leads(INITIAL, before, start) && Stands(start, a, b, c, {b, c}, [Note(1, a)]) && start.merging.None?
    ensures Leads(INITIAL, before + [Finish((1, c), Observed(Note(1, c)))], s)
    ensures Stands(s, a, b, c, {b}, [Note(1, a), Note(1, c)]) && s.merging.None?
  {
    ThirdArrives(start, a, b, c);
    Further(before, start, Finish((1, c), Observed(Note(1, c))));
    s := Finished(start, (1, c), Observed(Note(1, c)));
  }

  /** The merge of the two Observations is sent. */
  lemma MergeIsSent(a: string, b: string, c: string, before: seq<Event>, start: State) returns (s: State)
    requires Leads(INITIAL, before, start) && start.merging.None?
    requires Stands(start, a, b, c, {b}, [Note(1, a), Note(1, c)])
    ensures Leads(INITIAL, before + [Send], s)
    ensures Stands(s, a, b, c, {b}, [Note(1, a), Note(1, c)]) && s.merging == Some((Note(1, a), Note(1, c)))
  {
    Further(before, start, Send);
    s := Step(start, Send);
  }

  /** The Observation of `b` arrives. */
  lemma SecondIsObserved(a: string, b: string, c: string, before: seq<Event>, start: State) returns (s: State)
    requires Different(a, b, c) && Leads(INITIAL, before, start)
    requires Stands(start, a, b, c, {b}, [Note(1, a), Note(1, c)])
    ensures Leads(INITIAL, before + [Finish((1, b), Observed(Note(1, b)))], s)
    ensures s.observations == [Note(1, a), Note(1, b), Note(1, c)] && b in s.positives && s.merging == start.merging
  {
    SecondArrives(start, a, b, c);
    Further(before, start, Finish((1, b), Observed(Note(1, b))));
    s := Finished(start, (1, b), Observed(Note(1, b)));
  }

  /** The merge swallows the Observation of `b`. */
  lemma SecondIsSwallowed(a: string, b: string, c: string, before: seq<Event>, start: State) returns (s: State)
    requires Different(a, b, c) && Leads(INITIAL, before, start) && b in start.positives
    requires start.observations == [Note(1, a), Note(1, b), Note(1, c)]
    requires start.merging == Some((Note(1, a), Note(1, c)))
    ensures Leads(INITIAL, before + [Receive(Merged(Union(a, c)))], s)
    ensures b in s.positives && b !in ObservedIds(s.observations)
  {
    UnionSwallows(start, a, b, c);
    Further(before, start, Receive(Merged(Union(a, c))));
    s := Received(start, Merged(Union(a, c)));
  }

  /** A run from the start in which the Observation of `b` succeeds with positive impact and no retained Observation
      names `b` in the end, although no call was repeated and the merge reply names exactly its sources. */
  lemma LateArrivalIsLost(a: string, b: string, c: string)
    requires Different(a, b, c)
    ensures Possible(INITIAL, LateRun(a, b, c))
    ensures var s := Run(INITIAL, LateRun(a, b, c)); b in s.positives && b !in ObservedIds(s.observations)
  {
    var events, s := AllStarted(a, b, c);
    var first, third := Finish((1, a), Observed(Note(1, a))), Finish((1, c), Observed(Note(1, c)));
    var second, reply := Finish((1, b), Observed(Note(1, b))), Receive(Merged(Union(a, c)));
    s := FirstIsObserved(a, b, c, events, s);
    s := ThirdIsObserved(a, b, c, events + [first], s);
    s := MergeIsSent(a, b, c, events + [first] + [third], s);
    s := SecondIsObserved(a, b, c, events + [first] + [third] + [Send], s);
    s := SecondIsSwallowed(a, b, c, events + [first] + [third] + [Send] + [second], s);
    assert events + [first] + [third] + [Send] + [second] + [reply] == LateRun(a, b, c);
    assert Leads(INITIAL, LateRun(a, b, c), s);
  }

  // ----- When a merge makes progress -----

  /** Whatever the identifiers: an accepted merge shrinks the list exactly when the first of the two Observations is
      found before the second; when both are found at the same place it keeps the length, and otherwise it adds one. */
  lemma MergeShrinksIff(s: State, reply: MergeReply)
    requires Held(s) && MergeOf(s.merging.value.0, s.merging.value.1, reply).Some?
    ensures var i, j := IndexOf(s.observations, s.merging.value.0), IndexOf(s.observations, s.merging.value.1);
      && |Received(s, reply).observations| == |s.observations| + (if i <= j then i - j else 1)
      && (|Received(s, reply).observations| < |s.observations| <==> i < j)
  {
  }

  /** A merge that is sent, and answered before anything else arrives, makes progress exactly when the two
      Observations differ. */
  lemma UndisturbedMergeShrinksIff(s: State, reply: MergeReply)
    requires Allowed(s, Send) && MergeOf(s.observations[0], s.observations[1], reply).Some?
    ensures Held(Step(s, Send))
    ensures |Received(Step(s, Send), reply).observations| < |s.observations| <==> s.observations[0] != s.observations[1]
  {
    var list := s.observations;
    MergeShrinksIff(Step(s, Send), reply);
    assert IndexOf(list, list[0]) == 0;
    if list[0] != list[1] {
      assert list[1..][0] == list[1] && IndexOf(list, list[1]) == 1;
    }
  }

  /** What a request for call `key` can add to the Observations */
  predicate Positive(o: Observation, key: Key) {
    SettledFor(Observed(o), key) && o.affects
  }

  /** However two calls are observed, merging their Observations makes progress. */
  ghost predicate AlwaysShrinks(a: Key, b: Key) {
    forall o, p, s: State, reply |
      Positive(o, a) && Positive(p, b) && s.observations == [o, p] && Allowed(s, Send) && MergeOf(o, p, reply).Some? ::
      |Received(Step(s, Send), reply).observations| < 2
  }

  lemma AnyCallHasNote(key: Key)
    ensures Positive(Note(key.0, key.1), key)
    ensures var o := Note(key.0, key.1); MergeOf(o, o, Merged(o)).Some?
  {
    assert Note(key.0, key.1).confirmed[1..] == [];
    assert SourceList(Note(key.0, key.1)) == [key.1];
  }

  /** The loop that merges until the budget is met needs distinct calls, and no more: merging the Observations of two
      calls always makes progress exactly when the calls differ in round or identifier. */
  lemma ProgressNeedsDistinctCalls(a: Key, b: Key)
    ensures AlwaysShrinks(a, b) <==> a != b
  {
    if a == b {
      var o := Note(a.0, a.1);
      AnyCallHasNote(a);
      var s := INITIAL.(observations := [o, o]);
      UndisturbedMergeShrinksIff(s, Merged(o));
      assert Allowed(s, Send) && MergeOf(o, o, Merged(o)).Some?;
    } else {
      forall o, p, s: State, reply |
        Positive(o, a) && Positive(p, b) && s.observations == [o, p] && Allowed(s, Send) && MergeOf(o, p, reply).Some?
        ensures |Received(Step(s, Send), reply).observations| < 2
      {
        UndisturbedMergeShrinksIff(s, reply);
      }
    }
  }

  /** The events can happen in the code, whatever the identifiers are. */
  predicate AllowedRun(s: State, events: seq<Event>)
    decreases |events|
  {
    events == [] || (Allowed(s, events[0]) && AllowedRun(Step(s, events[0]), events[1..]))
  }

  function Reached(s: State, events: seq<Event>): State
    requires AllowedRun(s, events)
    decreases |events|
  {
    if events == [] then s else Reached(Step(s, events[0]), events[1..])
  }

  lemma {:induction false} ReachedFurther(s: State, events: seq<Event>, e: Event)
    requires AllowedRun(s, events) && Allowed(Reached(s, events), e)
    ensures AllowedRun(s, events + [e]) && Reached(s, events + [e]) == Step(Reached(s, events), e)
    decreases |events|
  {
    if events == [] {
      assert [e][1..] == [];
    } else {
      assert (events + [e])[1..] == events[1..] + [e];
      ReachedFurther(Step(s, events[0]), events[1..], e);
    }
  }

  /** Two calls of one batch that share an identifier are recorded, requested and observed alike. */
  function SharedRun(round: int, c: RawCall, d: RawCall, o: Observation): seq<Event> {
    var key := (round, c.id);
    [Record(round, [c, d]), Start(key), Start(key), Finish(key, Observed(o)), Finish(key, Observed(o))]
  }

  /** The events can happen in the code from the start and lead to `s`. */
  ghost predicate CanLead(events: seq<Event>, s: State) {
    AllowedRun(INITIAL, events) && Reached(INITIAL, events) == s
  }

  lemma CanLeadFurther(events: seq<Event>, s: State, e: Event)
    requires CanLead(events, s) && Allowed(s, e)
    ensures CanLead(events + [e], Step(s, e))
  {
    ReachedFurther(INITIAL, events, e);
  }

  /** Two requests for one call are in flight. */
  lemma SharedIsStarted(round: int, c: RawCall, d: RawCall) returns (events: seq<Event>, s: State)
    requires c.id == d.id
    ensures CanLead(events, s) && events == [Record(round, [c, d]), Start((round, c.id)), Start((round, c.id))]
    ensures s.tasks == multiset{(round, c.id), (round, c.id)} && s.observations == []
    ensures s.merging.None? && s.raw == [RawRound(round, [c, d])]
  {
    var batch, start := Record(round, [c, d]), Start((round, c.id));
    SharedIsNumbered(round, c, d);
    events, s := [], INITIAL;
    CanLeadFurther(events, s, batch);
    events, s := events + [batch], Step(s, batch);
    CanLeadFurther(events, s, start);
    events, s := events + [start], Step(s, start);
    CanLeadFurther(events, s, start);
    events, s := events + [start], Step(s, start);
  }

  lemma SharedArrives(s: State, key: Key, o: Observation, list: seq<Observation>)
    requires key in s.tasks && Positive(o, key) && s.observations == list && (list == [] || list == [o])
    ensures var t := Finished(s, key, Observed(o));
      && t.observations == (if list == [] then [o] else [o, o]) && t.merging == s.merging
      && t.raw == s.raw && t.tasks == s.tasks - multiset{key}
  {
    SortOfEquals(s.callOrder, s.nextOrder, o);
    assert [] + [o] == [o] && [o] + [o] == [o, o];
  }

  lemma SharedEnds(before: seq<Event>, start: State, key: Key, o: Observation, list: seq<Observation>)
    returns (s: State)
    requires CanLead(before, start) && key in start.tasks && Positive(o, key)
    requires start.observations == list && (list == [] || list == [o])
    ensures CanLead(before + [Finish(key, Observed(o))], s)
    ensures s.observations == (if list == [] then [o] else [o, o]) && s.merging == start.merging
    ensures s.raw == start.raw && s.tasks == start.tasks - multiset{key}
  {
    SharedArrives(start, key, o, list);
    CanLeadFurther(before, start, Finish(key, Observed(o)));
    s := Finished(start, key, Observed(o));
  }

  lemma SharedIsObserved(round: int, c: RawCall, d: RawCall, o: Observation) returns (s: State)
    requires c.id == d.id && Positive(o, (round, c.id))
    ensures CanLead(SharedRun(round, c, d, o), s)
    ensures s.observations == [o, o] && s.merging.None? && s.raw == [RawRound(round, [c, d])]
  {
    var key := (round, c.id);
    var events;
    events, s := SharedIsStarted(round, c, d);
    s := SharedEnds(events, s, key, o, []);
    s := SharedEnds(events + [Finish(key, Observed(o))], s, key, o, [o]);
    assert events + [Finish(key, Observed(o))] + [Finish(key, Observed(o))] == SharedRun(round, c, d, o);
  }

  lemma SharedIsNumbered(round: int, c: RawCall, d: RawCall)
    requires c.id == d.id
    ensures (round, c.id) in Recorded(INITIAL, round, [c, d]).callOrder
    ensures Recorded(INITIAL, round, [c, d]).raw == [RawRound(round, [c, d])]
  {
    assert [c, d][..1] == [c];
  }

  lemma SortOfEquals(order: map<Key, nat>, next: nat, o: Observation)
    ensures SortByOrder(order, next, [o]) == [o] && SortByOrder(order, next, [o, o]) == [o, o]
  {
    var atMost := ByOrder(order, next);
    assert [o][..0] == [] && [o, o][..1] == [o];
    assert Lists.StableSort([o], atMost) == [o];
  }

  /** Two calls that share an identifier (as calls without one share "unknown") can be observed alike.  From there a
      merge may be sent and answered with the same Observation again: the state is then what it was, and merging
      goes on like that for ever. */
  lemma SharedIdsStopMerging(round: int, c: RawCall, d: RawCall, o: Observation)
    requires c.id == d.id && Positive(o, (round, c.id))
    requires round != 0 && o.start == o.end == Some(round) && Lists.NoDuplicates(o.targets)
    ensures AllowedRun(INITIAL, SharedRun(round, c, d, o))
    ensures var s := Reached(INITIAL, SharedRun(round, c, d, o));
      && Allowed(s, Send) && Allowed(Step(s, Send), Receive(Merged(o)))
      && MergeOf(s.observations[0], s.observations[1], Merged(o)).Some?
      && NamesOnlySources(Merged(o), s.observations[0], s.observations[1])
      && Step(Step(s, Send), Receive(Merged(o))) == s
  {
    var s := SharedIsObserved(round, c, d, o);
    Lists.AppendUniqueTwice(o.targets);
    assert MergeOf(o, o, Merged(o)) == Some(o);
    assert IndexOf([o, o], o) == 0;
    assert Splice([o, o], 0, 0, o) == [o, o];
  }
}

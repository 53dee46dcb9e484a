/** What a window shows: which recorded calls, in which order, and what the end of a call's own Observation request
    does to that. */
module ContextWindow {
  import opened Text
  import opened Observations
  import opened RuntimeContext
  import opened ContextOrder
  import opened ContextInvariants
  import opened ContextTheorems
  import Lists

  // ----- Which calls -----

  /** A retained Observation names the call. */
  ghost predicate Retained(s: State, id: string) {
    exists o | o in s.observations :: Names(o, id)
  }

  lemma ObservedIsRetained(s: State, id: string)
    ensures id in ObservedIds(s.observations) <==> Retained(s, id)
  {
    forall o
      ensures id in SourceIds(o) <==> Names(o, id)
    {
      SourcesAreNamed(o, id);
    }
  }

  /** One of the last `n` records has that number. */
  ghost predicate AmongLast(raw: seq<RawRound>, n: nat, round: int) {
    exists k | 0 <= k < |raw| && |raw| - n <= k :: raw[k].round == round
  }

  lemma LastRoundsAre(raw: seq<RawRound>, n: nat, round: int)
    ensures round in LastRounds(raw, n) <==> AmongLast(raw, n, round)
  {
    var from := if |raw| <= n then 0 else |raw| - n;
    var recent := raw[from..];
    if k :| 0 <= k < |raw| && |raw| - n <= k && raw[k].round == round {
      assert recent[k - from] == raw[k];
    }
  }

  /** File reads always; other reads while recent; listings in the last round; and evidence of a write until an
      Observation of it is retained or, when its own Observation came to nothing, until it is no longer recent. */
  ghost predicate Belongs(s: State, rawRounds: nat, round: int, call: RawCall) {
    match call.lifecycle
    case PermanentRaw => true
    case RecentRaw => AmongLast(s.raw, rawRounds, round)
    case CurrentRaw => AmongLast(s.raw, 1, round)
    case ObservationClass =>
      !Retained(s, call.id) && (SucceededId(s.outcomes, call.id) ==> AmongLast(s.raw, rawRounds, round))
  }

  lemma VisibleIs(s: State, rawRounds: nat, round: int, call: RawCall)
    ensures Visible(s, rawRounds, round, call) <==> Belongs(s, rawRounds, round, call)
  {
    LastRoundsAre(s.raw, 1, round);
    LastRoundsAre(s.raw, rawRounds, round);
    ObservedIsRetained(s, call.id);
    if call.lifecycle == ObservationClass {
      HiddenIsInvisible(s, rawRounds, round, call);
    }
  }

  // ----- The window, round by round -----

  /** `some` are exactly the calls of the record that belong in the window, each once and in order. */
  ghost predicate Chosen(s: State, rawRounds: nat, r: RawRound, some: seq<RawCall>, at: seq<nat>) {
    Lists.Picks(r.calls, c => Belongs(s, rawRounds, r.round, c), some, at)
  }

  ghost predicate HasShown(s: State, rawRounds: nat, r: RawRound) {
    exists c | c in r.calls :: Belongs(s, rawRounds, r.round, c)
  }

  /** A record as the window shows it */
  ghost predicate RoundOf(s: State, rawRounds: nat, r: RawRound, shown: RawRound) {
    shown.round == r.round && exists p :: Chosen(s, rawRounds, r, shown.calls, p)
  }

  ghost predicate RoundsOf(s: State, rawRounds: nat, records: seq<RawRound>, window: seq<RawRound>) {
    |window| == |records| && forall k | 0 <= k < |records| :: RoundOf(s, rawRounds, records[k], window[k])
  }

  lemma {:induction false} CallsArePicked(s: State, rawRounds: nat, f: Filter, round: int, calls: seq<RawCall>)
    returns (p: seq<nat>)
    requires f == FilterOf(s.raw, s.observations, s.outcomes, rawRounds)
    ensures Chosen(s, rawRounds, RawRound(round, calls), VisibleCalls(f, round, calls), p)
  {
    p := [];
    if calls != [] {
      var n := |calls| - 1;
      p := CallsArePicked(s, rawRounds, f, round, calls[..n]);
      VisibleIs(s, rawRounds, round, calls[n]);
      p := Lists.PickMore(calls[..n], c => Belongs(s, rawRounds, round, c), VisibleCalls(f, round, calls[..n]), p,
                          calls[n]);
      assert calls[..n] + [calls[n]] == calls;
    }
  }

  lemma ChosenAny(s: State, rawRounds: nat, r: RawRound, some: seq<RawCall>, p: seq<nat>)
    requires Chosen(s, rawRounds, r, some, p)
    ensures some != [] <==> HasShown(s, rawRounds, r)
  {
    if some != [] {
      assert r.calls[p[0]] in r.calls;
    }
    if c :| c in r.calls && Belongs(s, rawRounds, r.round, c) {
      var j :| 0 <= j < |r.calls| && r.calls[j] == c;
      assert j in p;
    }
  }

  lemma {:induction false} RecordsArePicked(s: State, rawRounds: nat, f: Filter, raw: seq<RawRound>)
    returns (records: seq<RawRound>, at: seq<nat>)
    requires f == FilterOf(s.raw, s.observations, s.outcomes, rawRounds)
    ensures Lists.Picks(raw, r => HasShown(s, rawRounds, r), records, at)
    ensures RoundsOf(s, rawRounds, records, VisibleRounds(f, raw))
  {
    records, at := [], [];
    if raw != [] {
      var n := |raw| - 1;
      var last := raw[n];
      records, at := RecordsArePicked(s, rawRounds, f, raw[..n]);
      var calls := VisibleCalls(f, last.round, last.calls);
      var p := CallsArePicked(s, rawRounds, f, last.round, last.calls);
      ChosenAny(s, rawRounds, last, calls, p);
      at := Lists.PickMore(raw[..n], r => HasShown(s, rawRounds, r), records, at, last);
      records := records + if HasShown(s, rawRounds, last) then [last] else [];
      assert raw[..n] + [last] == raw;
    }
  }

  /** A window holds the retained Observations, and of the records, in order and once each, exactly those in which
      some call belongs, each with exactly its calls that belong, in order and as often as they were recorded. */
  lemma WindowIs(s: State, rawRounds: nat) returns (records: seq<RawRound>, at: seq<nat>)
    ensures Assemble(s, rawRounds).observations == s.observations
    ensures Lists.Picks(s.raw, r => HasShown(s, rawRounds, r), records, at)
    ensures RoundsOf(s, rawRounds, records, Assemble(s, rawRounds).raw)
  {
    records, at := RecordsArePicked(s, rawRounds, FilterOf(s.raw, s.observations, s.outcomes, rawRounds), s.raw);
  }

  lemma ShownIff(s: State, rawRounds: nat, round: int, call: RawCall)
    requires HasCall(s.raw, round, call)
    ensures Shows(Assemble(s, rawRounds), round, call) <==> Belongs(s, rawRounds, round, call)
  {
    WindowShows(s, rawRounds, round, call);
    VisibleIs(s, rawRounds, round, call);
  }

  // ----- In every run -----

  /** Rounds grow, so a record is among the last ones exactly when its place is. */
  lemma PlaceAmongLast(raw: seq<RawRound>, n: nat, i: nat)
    requires IncreasingRounds(raw) && i < |raw|
    ensures AmongLast(raw, n, raw[i].round) <==> |raw| - n <= i
  {
  }

  lemma LedInv(events: seq<Event>, s: State)
    requires Leads(INITIAL, events, s)
    ensures Inv(s)
  {
    InitiallyInv();
    RunKeepsInv(INITIAL, events);
  }

  /** In every run, for call `j` of record `i`: a file read is in every window, another read exactly while its record
      is among the last `rawRounds`, a listing exactly while it is in the last record; and a write-class call always
      while its own Observation has not succeeded, then exactly while its record is recent and no retained Observation
      names it. */
  lemma RunShows(events: seq<Event>, s: State, rawRounds: nat, i: nat, j: nat)
    requires Leads(INITIAL, events, s) && i < |s.raw| && j < |s.raw[i].calls|
    ensures var round, call, recent := s.raw[i].round, s.raw[i].calls[j], |s.raw| - rawRounds <= i;
      Shows(Assemble(s, rawRounds), round, call) <==>
        match call.lifecycle
        case PermanentRaw => true
        case RecentRaw => recent
        case CurrentRaw => i == |s.raw| - 1
        case ObservationClass => !SucceededCall(s, round, call) || (recent && !Retained(s, call.id))
  {
    LedInv(events, s);
    PlaceShows(s, rawRounds, i, j);
  }

  lemma PlaceShows(s: State, rawRounds: nat, i: nat, j: nat)
    requires Inv(s) && i < |s.raw| && j < |s.raw[i].calls|
    ensures var round, call, recent := s.raw[i].round, s.raw[i].calls[j], |s.raw| - rawRounds <= i;
      Shows(Assemble(s, rawRounds), round, call) <==>
        match call.lifecycle
        case PermanentRaw => true
        case RecentRaw => recent
        case CurrentRaw => i == |s.raw| - 1
        case ObservationClass => !SucceededCall(s, round, call) || (recent && !Retained(s, call.id))
  {
    var round, call := s.raw[i].round, s.raw[i].calls[j];
    PlaceAmongLast(s.raw, rawRounds, i);
    PlaceAmongLast(s.raw, 1, i);
    assert HasCall(s.raw, round, call) by {
      assert s.raw[i] in s.raw;
    }
    ShownIff(s, rawRounds, round, call);
    if call.lifecycle == ObservationClass {
      OwnSuccess(s, round, call);
    }
  }

  /** With unique identifiers only a call's own request can succeed for it, and until then nothing names it. */
  lemma OwnSuccess(s: State, round: int, call: RawCall)
    requires Inv(s) && HasCall(s.raw, round, call)
    ensures SucceededId(s.outcomes, call.id) <==> SucceededCall(s, round, call)
    ensures !SucceededCall(s, round, call) ==> !Retained(s, call.id)
  {
    RecordedIsNumbered(s, round, call);
    if !SucceededCall(s, round, call) {
      PendingIsNoSource(s, (round, call.id));
      ObservedIsRetained(s, call.id);
    }
    if SucceededId(s.outcomes, call.id) {
      var key :| key in s.outcomes && key.1 == call.id && s.outcomes[key] == Succeeded;
      OneCallPerId(s, key, (round, call.id));
    }
  }

  /** What the end of a call's own request leaves behind */
  lemma EndLeaves(s: State, key: Key, settled: Settled, t: State)
    requires Inv(s) && key in s.tasks && SettledFor(settled, key) && t == Finished(s, key, settled)
    ensures Inv(t) && t.raw == s.raw && key in t.outcomes
    ensures t.outcomes[key] == Succeeded <==> settled.Observed?
    ensures Retained(t, key.1) <==> settled.Observed? && settled.observation.affects
  {
    FinishKeepsInv(s, key, settled);
    PendingIsNoSource(s, key);
    ObservedIsRetained(t, key.1);
    if settled.Observed? && settled.observation.affects {
      PositiveKeepsInv(s, key, settled.observation);
    }
  }

  lemma EndShowsAt(s: State, settled: Settled, rawRounds: nat, i: nat, j: nat, t: State)
    requires Inv(s) && i < |s.raw| && j < |s.raw[i].calls| && s.raw[i].calls[j].lifecycle == ObservationClass
    requires var key := (s.raw[i].round, s.raw[i].calls[j].id);
      key in s.tasks && SettledFor(settled, key) && t == Finished(s, key, settled)
    ensures t.raw == s.raw
    ensures Shows(Assemble(t, rawRounds), s.raw[i].round, s.raw[i].calls[j]) <==>
      settled.Refused? || (!settled.observation.affects && |s.raw| - rawRounds <= i)
  {
    EndLeaves(s, (s.raw[i].round, s.raw[i].calls[j].id), settled, t);
    PlaceShows(t, rawRounds, i, j);
  }

  /** When the Observation request of a call ends in some run, the next window shows the call exactly when the request
      failed, or told that the call does not matter and the call is still recent. */
  lemma EndShows(events: seq<Event>, s: State, settled: Settled, rawRounds: nat, i: nat, j: nat, t: State)
    requires Leads(INITIAL, events, s) && i < |s.raw| && j < |s.raw[i].calls|
    requires s.raw[i].calls[j].lifecycle == ObservationClass
    requires var key := (s.raw[i].round, s.raw[i].calls[j].id);
      key in s.tasks && SettledFor(settled, key) && t == Step(s, Finish(key, settled))
    ensures Shows(Assemble(t, rawRounds), s.raw[i].round, s.raw[i].calls[j]) <==>
      settled.Refused? || (!settled.observation.affects && |s.raw| - rawRounds <= i)
  {
    LedInv(events, s);
    EndShowsAt(s, settled, rawRounds, i, j, t);
  }

  // ----- What is recorded -----

  function RecordOf(e: Event): seq<RawRound> {
    if e.Record? then [RawRound(e.round, e.calls)] else []
  }

  function Records(events: seq<Event>): seq<RawRound> {
    if events == [] then [] else RecordOf(events[0]) + Records(events[1..])
  }

  lemma StepRecords(s: State, e: Event)
    requires Enabled(s, e)
    ensures Step(s, e).raw == s.raw + RecordOf(e)
  {
  }

  /** The raw record of a run is what was recorded, complete and in order. */
  lemma {:induction false} RawIsRecorded(s: State, events: seq<Event>, t: State)
    requires Leads(s, events, t)
    ensures t.raw == s.raw + Records(events)
    decreases |events|
  {
    if events != [] {
      var e, rest := events[0], events[1..];
      LeadsHead(s, events, t);
      StepRecords(s, e);
      RawIsRecorded(Step(s, e), rest, t);
      assert s.raw + RecordOf(e) + Records(rest) == s.raw + (RecordOf(e) + Records(rest));
    }
  }

  // ----- Merging -----

  /** A merge that is answered before anything else arrives replaces the two oldest Observations by one, in front of
      the others: with the reply's evidence and round, the impact and targets of both, and from the first one's source
      round to the second one's. */
  lemma MergeReplacesOldest(s: State, o: Observation)
    requires s.merging.None? && |s.observations| >= 2
    requires s.observations[0] != s.observations[1]
    requires forall id | Names(s.observations[0], id) || Names(s.observations[1], id) :: Names(o, id)
    ensures var a, b, sent := s.observations[0], s.observations[1], Step(s, Send);
      Allowed(sent, Receive(Merged(o))) && var list := Step(sent, Receive(Merged(o))).observations;
      && list != [] && list[1..] == s.observations[2..]
      && list[0].confirmed == o.confirmed && list[0].errors == o.errors && list[0].inferences == o.inferences
      && list[0].round == o.round && list[0].affects == (a.affects || b.affects)
      && (forall t :: t in list[0].targets <==> t in a.targets || t in b.targets)
      && list[0].start == Some(OrElse(a.start, a.round)) && list[0].end == Some(OrElse(b.end, b.round))
  {
    var a, b := s.observations[0], s.observations[1];
    var m := MergeOf(a, b, Merged(o));
    forall id
      ensures id in SourceIds(o) <==> Names(o, id)
      ensures id in SourceIds(a) <==> Names(a, id)
      ensures id in SourceIds(b) <==> Names(b, id)
    {
      SourcesAreNamed(o, id);
      SourcesAreNamed(a, id);
      SourcesAreNamed(b, id);
    }
    Lists.AppendUniqueExtends([], a.targets + b.targets);
    assert IndexOf(s.observations, a) == 0 && IndexOf(s.observations, b) == 1;
    assert Splice(s.observations, 0, 1, m.value) == [m.value] + s.observations[2..];
  }

  /** A reply that loses a source, or none at all, changes no Observation. */
  lemma MergeNeedsSources(s: State, reply: MergeReply)
    requires Held(s)
    requires reply.Merged? ==> exists id ::
      !Names(reply.observation, id) && (Names(s.merging.value.0, id) || Names(s.merging.value.1, id))
    ensures Step(s, Receive(reply)) == s.(merging := None)
  {
    if reply.Merged? {
      var a, b, o := s.merging.value.0, s.merging.value.1, reply.observation;
      var id :| !Names(o, id) && (Names(a, id) || Names(b, id));
      SourcesAreNamed(o, id);
      SourcesAreNamed(a, id);
      SourcesAreNamed(b, id);
    }
  }
}

/** Exclusive leases on agent runs against a clock that never goes back. */
module Registry {
  import opened Text

  const LEASE_SECONDS := 60.0

  datatype RunRecord = RunRecord(
    status: string, fingerprint: string, terminal: Option<string>, owner: Option<string>, expires: Option<real>)

  datatype Reply = Done | Busy | Unknown

  // ----- Calls on one record -----

  /** Renewing reads the clock twice, for the check and for the new expiry. */
  datatype Call =
    | Acquire(owner: string, at: real)
    | Renew(owner: string, at: real, again: real)
    | Release(owner: string, at: real)
    | SetTerminal(owner: string, at: real, status: string, result: string)
    | Recreate(at: real, fingerprint: string)

  /** Somebody else holds a lease that has not run out. */
  predicate HeldByOther(r: RunRecord, owner: string, now: real) {
    && r.owner.Some? && r.owner.value != "" && r.owner.value != owner
    && r.expires.Some? && r.expires.value > now
  }

  predicate Accepts(r: RunRecord, c: Call) {
    match c
    case Acquire(owner, at) => !HeldByOther(r, owner, at)
    case Renew(owner, at, _) => r.owner == Some(owner) && r.expires.Some? && r.expires.value > at
    case Release(_, _) => true
    case SetTerminal(owner, _, _, _) => r.owner == Some(owner)
    case Recreate(_, _) => true
  }

  /** The record of a run that is created */
  function Created(fingerprint: string): RunRecord {
    RunRecord("running", fingerprint, None, None, None)
  }

  /** A call that is not accepted changes nothing. */
  function After(r: RunRecord, c: Call): RunRecord {
    if !Accepts(r, c) then r
    else
      match c
      case Acquire(owner, at) => r.(owner := Some(owner), expires := Some(at + LEASE_SECONDS))
      case Renew(_, _, again) => r.(expires := Some(again + LEASE_SECONDS))
      case Release(owner, _) => if r.owner == Some(owner) then r.(owner := None, expires := None) else r
      case SetTerminal(_, _, status, result) => r.(status := status, terminal := Some(result))
      case Recreate(_, fingerprint) => Created(fingerprint)
  }

  function AfterAll(r: RunRecord, calls: seq<Call>): RunRecord {
    if calls == [] then r else After(AfterAll(r, calls[..|calls| - 1]), calls[|calls| - 1])
  }

  /** Whether the call at `i` is accepted when the calls are made in this order */
  predicate AcceptedAt(r: RunRecord, calls: seq<Call>, i: nat)
    requires i < |calls|
  {
    Accepts(AfterAll(r, calls[..i]), calls[i])
  }

  // ----- The registry -----

  class InMemoryRunRegistry {
    var records: map<string, RunRecord>

    constructor ()
      ensures records == map[]
    {
      records := map[];
    }

    /** A new run starts without a lease; a run that exists already is created anew. */
    method Create(runId: string, fingerprint: string, now: real)
      modifies this
      ensures runId !in old(records) ==> records == old(records)[runId := Created(fingerprint)]
      ensures runId in old(records) ==> Answers(Recreate(now, fingerprint), runId, Done, old(records))
    {
      records := records[runId := RunRecord("running", fingerprint, None, None, None)];
    }

    /** What every call does: unknown runs and refused calls change nothing, the other runs never change. */
    ghost predicate Answers(c: Call, runId: string, reply: Reply, before: map<string, RunRecord>)
      reads this
    {
      if runId !in before then reply == Unknown && records == before
      else
        && reply == (if Accepts(before[runId], c) then Done else Busy)
        && records == before[runId := After(before[runId], c)]
    }

    method AcquireLease(runId: string, owner: string, now: real) returns (reply: Reply)
      modifies this
      ensures Answers(Acquire(owner, now), runId, reply, old(records))
    {
      if runId !in records {
        return Unknown;
      }
      var r := records[runId];
      if r.owner.Some? && r.owner.value != "" && r.owner.value != owner && r.expires.Some? && r.expires.value > now {
        return Busy;
      }
      records := records[runId := r.(owner := Some(owner), expires := Some(now + LEASE_SECONDS))];
      reply := Done;
    }

    method RenewLease(runId: string, owner: string, now: real, again: real) returns (reply: Reply)
      modifies this
      ensures Answers(Renew(owner, now, again), runId, reply, old(records))
    {
      if runId !in records {
        return Unknown;
      }
      var r := records[runId];
      if r.owner != Some(owner) || r.expires.None? || r.expires.value <= now {
        return Busy;
      }
      records := records[runId := r.(expires := Some(again + LEASE_SECONDS))];
      reply := Done;
    }

    method ReleaseLease(runId: string, owner: string, now: real) returns (reply: Reply)
      modifies this
      ensures Answers(Release(owner, now), runId, reply, old(records))
    {
      if runId !in records {
        return Unknown;
      }
      var r := records[runId];
      if r.owner == Some(owner) {
        records := records[runId := r.(owner := None, expires := None)];
      }
      reply := Done;
    }

    method SetTerminalResult(runId: string, owner: string, now: real, status: string, result: string)
      returns (reply: Reply)
      modifies this
      ensures Answers(SetTerminal(owner, now, status, result), runId, reply, old(records))
    {
      if runId !in records {
        return Unknown;
      }
      var r := records[runId];
      if r.owner != Some(owner) {
        return Busy;
      }
      records := records[runId := r.(status := status, terminal := Some(result))];
      reply := Done;
    }
  }

  // ----- Holding a lease -----

  /** `owner` holds the lease at least until `until`. */
  predicate Holds(r: RunRecord, owner: string, until: real) {
    r.owner == Some(owner) && r.expires.Some? && r.expires.value >= until
  }

  /** When `owner` last asked for the lease, having asked for it at `last` before these calls */
  function LastAsked(owner: string, last: real, calls: seq<Call>): real {
    if calls == [] then last
    else
      match calls[|calls| - 1]
      case Acquire(o, at) => if o == owner then at else LastAsked(owner, last, calls[..|calls| - 1])
      case Renew(o, _, again) => if o == owner then again else LastAsked(owner, last, calls[..|calls| - 1])
      case _ => LastAsked(owner, last, calls[..|calls| - 1])
  }

  function TimeOf(c: Call): real {
    if c.Renew? then c.again else c.at
  }

  /** What the clock shows after the calls */
  function ClockAfter(start: real, calls: seq<Call>): real {
    if calls == [] then start else TimeOf(calls[|calls| - 1])
  }

  /** The clock never goes back, not even within a renewal. */
  predicate Clocked(start: real, calls: seq<Call>) {
    calls == [] ||
    (var c := calls[|calls| - 1];
     Clocked(start, calls[..|calls| - 1]) && ClockAfter(start, calls[..|calls| - 1]) <= c.at <= TimeOf(c))
  }

  /** The call takes the lease from `owner` without asking: `owner` gives it up, or the run is created anew. */
  predicate Drops(c: Call, owner: string) {
    (c.Release? && c.owner == owner) || c.Recreate?
  }

  /** Nothing drops the lease, and no call comes 60 seconds or more after `owner` last asked for it. */
  predicate Kept(owner: string, last: real, calls: seq<Call>) {
    forall i | 0 <= i < |calls| ::
      && !Drops(calls[i], owner)
      && calls[i].at < LastAsked(owner, last, calls[..i]) + LEASE_SECONDS
  }

  lemma {:induction false} ClockedPrefix(start: real, calls: seq<Call>, n: nat)
    requires Clocked(start, calls) && n <= |calls|
    ensures Clocked(start, calls[..n])
  {
    if n == |calls| {
      assert calls[..n] == calls;
    } else {
      assert calls[..|calls| - 1][..n] == calls[..n];
      ClockedPrefix(start, calls[..|calls| - 1], n);
    }
  }

  lemma KeptPrefix(owner: string, last: real, calls: seq<Call>, n: nat)
    requires Kept(owner, last, calls) && n <= |calls|
    ensures Kept(owner, last, calls[..n])
  {
    forall i | 0 <= i < n
      ensures !Drops(calls[..n][i], owner)
      ensures calls[..n][i].at < LastAsked(owner, last, calls[..n][..i]) + LEASE_SECONDS
    {
      assert calls[..n][..i] == calls[..i];
    }
  }

  /** `owner` asked no later than the clock shows. */
  lemma {:induction false} AskedInThePast(owner: string, last: real, calls: seq<Call>)
    requires Clocked(last, calls)
    ensures LastAsked(owner, last, calls) <= ClockAfter(last, calls)
  {
    if calls != [] {
      AskedInThePast(owner, last, calls[..|calls| - 1]);
    }
  }

  /** Whether a call asks for the lease on behalf of `owner` */
  predicate Asks(c: Call, owner: string) {
    (c.Acquire? || c.Renew?) && c.owner == owner
  }

  lemma HeldStep(r: RunRecord, owner: string, asked: real, c: Call)
    requires owner != "" && Holds(r, owner, asked + LEASE_SECONDS)
    requires asked <= c.at <= TimeOf(c) && c.at < asked + LEASE_SECONDS && !Drops(c, owner)
    ensures Holds(After(r, c), owner, (if Asks(c, owner) then TimeOf(c) else asked) + LEASE_SECONDS)
    ensures !c.Release? ==> (Accepts(r, c) <==> c.owner == owner)
  {
  }

  lemma {:induction false} LeaseIsHeld(r: RunRecord, owner: string, last: real, calls: seq<Call>)
    requires owner != "" && Holds(r, owner, last + LEASE_SECONDS) && Clocked(last, calls) && Kept(owner, last, calls)
    ensures Holds(AfterAll(r, calls), owner, LastAsked(owner, last, calls) + LEASE_SECONDS)
  {
    if calls != [] {
      var front, c := calls[..|calls| - 1], calls[|calls| - 1];
      KeptPrefix(owner, last, calls, |calls| - 1);
      LeaseIsHeld(r, owner, last, front);
      AskedInThePast(owner, last, front);
      HeldStep(AfterAll(r, front), owner, LastAsked(owner, last, front), c);
    }
  }

  /** A lease that is asked for again in time is never lost, whoever else calls in between: exactly the calls of
      its owner are accepted. */
  lemma LeaseIsKept(r: RunRecord, owner: string, last: real, calls: seq<Call>, i: nat)
    requires owner != "" && Holds(r, owner, last + LEASE_SECONDS) && Clocked(last, calls) && Kept(owner, last, calls)
    requires i < |calls|
    ensures Holds(AfterAll(r, calls), owner, LastAsked(owner, last, calls) + LEASE_SECONDS)
    ensures !calls[i].Release? ==> (AcceptedAt(r, calls, i) <==> calls[i].owner == owner)
  {
    LeaseIsHeld(r, owner, last, calls);
    ClockedPrefix(last, calls, i);
    ClockedPrefix(last, calls, i + 1);
    assert calls[..i + 1][..i] == calls[..i];
    KeptPrefix(owner, last, calls, i);
    LeaseIsHeld(r, owner, last, calls[..i]);
    AskedInThePast(owner, last, calls[..i]);
    HeldStep(AfterAll(r, calls[..i]), owner, LastAsked(owner, last, calls[..i]), calls[i]);
  }

  /** Whatever others do, asking again in time keeps the lease. */
  ghost predicate KeepsLease(owner: string) {
    forall r, last, calls | Holds(r, owner, last + LEASE_SECONDS) && Clocked(last, calls) && Kept(owner, last, calls) ::
      Holds(AfterAll(r, calls), owner, LastAsked(owner, last, calls) + LEASE_SECONDS)
  }

  /** An owner with the empty name loses its lease to the next one that asks. */
  lemma EmptyNameIsDisplaced(r: RunRecord, last: real, other: string, calls: seq<Call>)
    requires Holds(r, "", last + LEASE_SECONDS) && other != "" && calls == [Acquire(other, last)]
    ensures Clocked(last, calls) && Kept("", last, calls) && AcceptedAt(r, calls, 0)
    ensures AfterAll(r, calls).owner == Some(other)
  {
    var none: seq<Call> := [];
    assert calls[..|calls| - 1] == calls[..0] == none;
    assert AfterAll(r, none) == r && Clocked(last, none) && LastAsked("", last, none) == last;
    assert ClockAfter(last, none) == last;
  }

  /** Asking again in time keeps a lease exactly for owners that have a name. */
  lemma LeaseNeedsName(owner: string)
    ensures KeepsLease(owner) <==> owner != ""
  {
    if owner == "" {
      var r := RunRecord("running", "", None, Some(""), Some(LEASE_SECONDS));
      var calls := [Acquire("other", 0.0)];
      EmptyNameIsDisplaced(r, 0.0, "other", calls);
      assert Holds(r, owner, 0.0 + LEASE_SECONDS);
    } else {
      forall r, last, calls | Holds(r, owner, last + LEASE_SECONDS) && Clocked(last, calls) && Kept(owner, last, calls)
        ensures Holds(AfterAll(r, calls), owner, LastAsked(owner, last, calls) + LEASE_SECONDS)
      {
        LeaseIsHeld(r, owner, last, calls);
      }
    }
  }

  /** Exclusion: after a successful acquire or renewal at `t`, no other owner's acquire succeeds before `t + 60`,
      unless the holder releases the lease or the run is created anew. */
  lemma LeaseIsExclusive(r: RunRecord, c: Call, calls: seq<Call>, i: nat)
    requires c.Acquire? || c.Renew?
    requires c.owner != "" && Accepts(r, c)
    requires Clocked(TimeOf(c), calls) && i < |calls|
    requires forall j | 0 <= j < |calls| ::
      calls[j].at < TimeOf(c) + LEASE_SECONDS && !Drops(calls[j], c.owner)
    requires calls[i].Acquire? && calls[i].owner != c.owner
    ensures !AcceptedAt(After(r, c), calls, i)
  {
    forall j | 0 <= j < |calls|
      ensures calls[j].at < LastAsked(c.owner, TimeOf(c), calls[..j]) + LEASE_SECONDS
    {
      ClockedPrefix(TimeOf(c), calls, j);
      AskedSinceStart(c.owner, TimeOf(c), calls[..j]);
    }
    LeaseIsKept(After(r, c), c.owner, TimeOf(c), calls, i);
  }

  lemma {:induction false} ClockAdvances(start: real, calls: seq<Call>)
    requires Clocked(start, calls)
    ensures start <= ClockAfter(start, calls)
  {
    if calls != [] {
      ClockAdvances(start, calls[..|calls| - 1]);
    }
  }

  lemma {:induction false} AskedSinceStart(owner: string, last: real, calls: seq<Call>)
    requires Clocked(last, calls)
    ensures last <= LastAsked(owner, last, calls)
  {
    if calls != [] {
      ClockAdvances(last, calls[..|calls| - 1]);
      AskedSinceStart(owner, last, calls[..|calls| - 1]);
    }
  }

  predicate By(c: Call, owner: string) {
    !c.Recreate? && c.owner == owner
  }

  /** A displaced owner can do nothing until it acquires the lease again: it cannot renew or finish the run, and
      its release leaves the record as it is. */
  lemma {:induction false} DisplacedOwnerIsPowerless(r: RunRecord, owner: string, calls: seq<Call>)
    requires r.owner != Some(owner)
    requires forall i | 0 <= i < |calls| :: !(calls[i].Acquire? && calls[i].owner == owner)
    ensures AfterAll(r, calls).owner != Some(owner)
    ensures forall i | 0 <= i < |calls| && By(calls[i], owner) ::
      After(AfterAll(r, calls[..i]), calls[i]) == AfterAll(r, calls[..i])
    ensures forall i | 0 <= i < |calls| && By(calls[i], owner) && !calls[i].Release? :: !AcceptedAt(r, calls, i)
  {
    if calls != [] {
      var n := |calls| - 1;
      DisplacedOwnerIsPowerless(r, owner, calls[..n]);
      forall i | 0 <= i < n
        ensures calls[..n][i] == calls[i] && calls[..n][..i] == calls[..i]
      {
      }
    }
  }

  /** Creating the run anew drops a live lease: its holder is displaced, and whoever asks next gets the lease. */
  lemma RecreationDropsLease(r: RunRecord, owner: string, other: string, at: real, fingerprint: string)
    ensures var created := After(r, Recreate(at, fingerprint));
      && created.owner != Some(owner) && !Accepts(created, Renew(owner, at, at))
      && Holds(After(created, Acquire(other, at)), other, at + LEASE_SECONDS)
  {
  }

  /** Whoever takes over a lease that has run out displaces its holder. */
  lemma TakeoverDisplaces(r: RunRecord, owner: string, other: string, at: real)
    requires owner != "" && other != owner && r.owner == Some(owner) && r.expires.Some?
    ensures Accepts(r, Acquire(other, at)) <==> r.expires.value <= at
    ensures Accepts(r, Acquire(other, at)) ==>
      && After(r, Acquire(other, at)).owner == Some(other)
      && Holds(After(r, Acquire(other, at)), other, at + LEASE_SECONDS)
  {
  }

  /** Finishing a run checks the owner and not the clock: a holder whose lease has run out can still finish it
      as long as nobody has taken over. */
  lemma ExpiredHolderCanFinish(r: RunRecord, owner: string, at: real, status: string, result: string)
    requires r.owner == Some(owner) && r.expires.Some? && r.expires.value <= at
    ensures Accepts(r, SetTerminal(owner, at, status, result)) && !Accepts(r, Renew(owner, at, at))
    ensures Holds(After(r, SetTerminal(owner, at, status, result)), owner, r.expires.value)
  {
  }

  // ----- How long a lease lasts -----

  lemma EndStep(r: RunRecord, owner: string, asked: real, c: Call)
    requires owner != "" && r.owner == Some(owner) && r.expires == Some(asked + 60.0)
    requires asked <= c.at < asked + LEASE_SECONDS && !Drops(c, owner)
    ensures After(r, c).owner == Some(owner)
    ensures After(r, c).expires == Some((if Asks(c, owner) then TimeOf(c) else asked) + 60.0)
  {
  }

  /** A lease that is asked for in time runs out exactly 60 seconds after it was last asked for. */
  lemma {:induction false} LeaseEnds(r: RunRecord, owner: string, last: real, calls: seq<Call>)
    requires owner != "" && r.owner == Some(owner) && r.expires == Some(last + 60.0)
    requires Clocked(last, calls) && Kept(owner, last, calls)
    ensures AfterAll(r, calls).owner == Some(owner)
    ensures AfterAll(r, calls).expires == Some(LastAsked(owner, last, calls) + 60.0)
  {
    if calls != [] {
      var front, c := calls[..|calls| - 1], calls[|calls| - 1];
      KeptPrefix(owner, last, calls, |calls| - 1);
      LeaseEnds(r, owner, last, front);
      AskedInThePast(owner, last, front);
      EndStep(AfterAll(r, front), owner, LastAsked(owner, last, front), c);
    }
  }

  /** After an accepted acquire or renewal, and whatever others call in time, another owner gets the lease exactly from
      60 seconds after the holder last asked, and until then exactly the holder can renew it. */
  lemma LeaseLasts(r: RunRecord, c: Call, calls: seq<Call>, other: string, at: real, again: real)
    requires (c.Acquire? || c.Renew?) && c.owner != "" && Accepts(r, c) && other != c.owner
    requires Clocked(TimeOf(c), calls) && Kept(c.owner, TimeOf(c), calls)
    ensures var s, end := AfterAll(After(r, c), calls), LastAsked(c.owner, TimeOf(c), calls) + 60.0;
      && (Accepts(s, Acquire(other, at)) <==> at >= end)
      && (Accepts(s, Renew(c.owner, at, again)) <==> at < end)
      && !Accepts(s, Renew(other, at, again))
  {
    LeaseEnds(After(r, c), c.owner, TimeOf(c), calls);
  }

  /** A released lease is free for everyone at once. */
  lemma ReleaseFrees(r: RunRecord, owner: string, at: real, other: string, later: real)
    requires r.owner == Some(owner)
    ensures Accepts(After(r, Release(owner, at)), Acquire(other, later))
  {
  }

  // ----- What a run is finished with -----

  /** The call writes status and result: the run is created anew, or finished by its owner. */
  predicate Writes(r: RunRecord, calls: seq<Call>, i: nat) {
    && i < |calls|
    && (calls[i].Recreate? || (calls[i].SetTerminal? && AfterAll(r, calls[..i]).owner == Some(calls[i].owner)))
  }

  /** The last call that wrote status and result */
  predicate LastWrite(r: RunRecord, calls: seq<Call>, i: nat) {
    Writes(r, calls, i) && forall j: nat | i < j < |calls| :: !Writes(r, calls, j)
  }

  lemma WritesBefore(r: RunRecord, calls: seq<Call>, i: nat)
    requires i + 1 < |calls|
    ensures Writes(r, calls, i) <==> Writes(r, calls[..|calls| - 1], i)
  {
    assert calls[..|calls| - 1][..i] == calls[..i];
  }

  /** Whoever calls in which order: status and result are exactly those that the last owner to finish the run gave,
      those of a new run when it was created anew since, and otherwise what they were. */
  lemma {:induction false} LastWriteRules(r: RunRecord, calls: seq<Call>)
    ensures forall i: nat | LastWrite(r, calls, i) ::
      if calls[i].SetTerminal?
      then AfterAll(r, calls).status == calls[i].status && AfterAll(r, calls).terminal == Some(calls[i].result)
      else AfterAll(r, calls).status == "running" && AfterAll(r, calls).terminal == None
    ensures (forall i: nat :: !Writes(r, calls, i)) ==>
      AfterAll(r, calls).status == r.status && AfterAll(r, calls).terminal == r.terminal
  {
    if calls != [] {
      var n := |calls| - 1;
      LastWriteRules(r, calls[..n]);
      forall i: nat | i < n
        ensures Writes(r, calls, i) <==> Writes(r, calls[..n], i)
      {
        WritesBefore(r, calls, i);
      }
      if !Writes(r, calls, n) {
        forall i: nat | LastWrite(r, calls, i)
          ensures LastWrite(r, calls[..n], i)
        {
        }
      }
    }
  }
}

/** The append-only log of step attempts, and the projection that a resumed run rebuilds from it. */
module Recovery {
  import opened Text
  import opened Lists
  import opened PlanState
  import opened PlanExecute

  datatype RecoveryAttempt = RecoveryAttempt(
    runId: string, attempt: nat, execution: StepExecution, update: Option<ContextUpdate>, recovery: bool, version: nat)

  datatype RecoverySnapshot = RecoverySnapshot(
    attempts: seq<RecoveryAttempt>, latest: seq<StepExecution>, context: ContextUpdate, version: nat)

  const EMPTY_CONTEXT := ContextUpdate([], [], [])

  /** Judge evidence belongs to a step only once it is complete. */
  function DurableExecution(e: StepExecution): StepExecution {
    if e.status == Completed then e else e.(evidence := None)
  }

  // ----- Attempt numbers -----

  function OfRun(log: seq<RecoveryAttempt>, runId: string): seq<RecoveryAttempt> {
    if log == [] then []
    else OfRun(log[..|log| - 1], runId) + if log[|log| - 1].runId == runId then [log[|log| - 1]] else []
  }

  function OfStep(log: seq<RecoveryAttempt>, runId: string, key: Key): seq<RecoveryAttempt> {
    if log == [] then []
    else
      var last := log[|log| - 1];
      OfStep(log[..|log| - 1], runId, key) + if last.runId == runId && KeyOf(last.execution) == key then [last] else []
  }

  predicate IsOpen(a: RecoveryAttempt) {
    a.execution.status == Pending || a.execution.status == Running
  }

  function Attempts(prior: seq<RecoveryAttempt>): set<nat> {
    if prior == [] then {} else Attempts(prior[..|prior| - 1]) + {prior[|prior| - 1].attempt}
  }

  /** The in-memory rule: an open attempt goes on, otherwise one more than the number of distinct attempts */
  function NextAttempt(prior: seq<RecoveryAttempt>): nat {
    if prior != [] && IsOpen(prior[|prior| - 1]) then prior[|prior| - 1].attempt
    else |Attempts(prior)| + 1
  }

  /** The rule of the database store: an open attempt goes on, otherwise one more than the latest attempt */
  function NextAttemptByLatest(prior: seq<RecoveryAttempt>): nat {
    if prior == [] then 1
    else
      var latest := prior[|prior| - 1];
      if IsOpen(latest) then latest.attempt else latest.attempt + 1
  }

  function NewAttempt(log: seq<RecoveryAttempt>, runId: string, e: StepExecution, update: Option<ContextUpdate>,
                      recovery: bool, version: nat): RecoveryAttempt
  {
    RecoveryAttempt(runId, NextAttempt(OfStep(log, runId, KeyOf(e))), DurableExecution(e), update, recovery, version)
  }

  /** A log that only ever grew by recording */
  predicate Numbered(log: seq<RecoveryAttempt>) {
    forall i | 0 <= i < |log| ::
      log[i].attempt == NextAttempt(OfStep(log[..i], log[i].runId, KeyOf(log[i].execution)))
  }

  /** Attempts start at one and go up by one exactly after a record that is not open. */
  ghost predicate Contiguous(prior: seq<RecoveryAttempt>) {
    && (prior != [] ==> prior[0].attempt == 1)
    && forall i, j | 0 <= i < j < |prior| && j == i + 1 ::
         prior[j].attempt == if IsOpen(prior[i]) then prior[i].attempt else prior[i].attempt + 1
  }

  function UpTo(n: nat): set<nat> {
    if n == 0 then {} else UpTo(n - 1) + {n}
  }

  lemma {:induction false} UpToIs(n: nat, k: nat)
    ensures k in UpTo(n) <==> 1 <= k <= n
  {
    if n > 0 {
      UpToIs(n - 1, k);
    }
  }

  lemma {:induction false} UpToSize(n: nat)
    ensures |UpTo(n)| == n
  {
    if n > 0 {
      UpToSize(n - 1);
      UpToIs(n - 1, n);
    }
  }

  function LastAttempt(prior: seq<RecoveryAttempt>): nat {
    if prior == [] then 0 else prior[|prior| - 1].attempt
  }

  lemma UpToLast(n: nat)
    requires n >= 1
    ensures UpTo(n) + {n} == UpTo(n)
  {
    UpToIs(n, n);
  }

  lemma ContiguousParts(front: seq<RecoveryAttempt>, a: RecoveryAttempt)
    requires Contiguous(front + [a])
    ensures Contiguous(front)
    ensures a.attempt == if front == [] then 1 else NextAttemptByLatest(front)
  {
    var all := front + [a];
    assert all[|front|] == a;
    assert forall i | 0 <= i < |front| :: all[i] == front[i];
  }

  lemma {:induction false} ContiguousCounts(prior: seq<RecoveryAttempt>)
    requires Contiguous(prior)
    ensures Attempts(prior) == UpTo(LastAttempt(prior))
    ensures prior != [] ==> LastAttempt(prior) >= 1
  {
    if prior != [] {
      var front, a := prior[..|prior| - 1], prior[|prior| - 1];
      assert prior == front + [a];
      ContiguousParts(front, a);
      ContiguousCounts(front);
      if front != [] {
        UpToLast(LastAttempt(front));
      }
    }
  }

  /** The two stores number attempts alike. */
  lemma RulesAgree(prior: seq<RecoveryAttempt>)
    requires Contiguous(prior)
    ensures NextAttempt(prior) == NextAttemptByLatest(prior)
  {
    ContiguousCounts(prior);
    UpToSize(LastAttempt(prior));
  }

  lemma ContiguousAppend(prior: seq<RecoveryAttempt>, a: RecoveryAttempt)
    requires Contiguous(prior) && a.attempt == NextAttempt(prior)
    ensures Contiguous(prior + [a])
  {
    RulesAgree(prior);
  }

  /** However runs and steps interleave, the attempts of one step are contiguous from one,
      so the in-memory and the database rule always choose the same number. */
  lemma {:induction false} AttemptsAreContiguous(log: seq<RecoveryAttempt>, runId: string, key: Key)
    requires Numbered(log)
    ensures Contiguous(OfStep(log, runId, key))
    ensures NextAttempt(OfStep(log, runId, key)) == NextAttemptByLatest(OfStep(log, runId, key))
  {
    if log != [] {
      var n := |log| - 1;
      NumberedPrefix(log);
      AttemptsAreContiguous(log[..n], runId, key);
      var a := log[n];
      if a.runId == runId && KeyOf(a.execution) == key {
        ContiguousAppend(OfStep(log[..n], runId, key), a);
      }
    }
    RulesAgree(OfStep(log, runId, key));
  }

  lemma NumberedPrefix(log: seq<RecoveryAttempt>)
    requires Numbered(log) && log != []
    ensures Numbered(log[..|log| - 1])
  {
    var front := log[..|log| - 1];
    forall i | 0 <= i < |front|
      ensures front[..i] == log[..i]
    {
    }
  }

  /** Attempts never go down, and all records of one attempt but its last are open. */
  lemma {:induction false} AttemptShape(prior: seq<RecoveryAttempt>, i: nat, j: nat)
    requires Contiguous(prior) && i < j < |prior|
    ensures prior[i].attempt <= prior[j].attempt
    ensures prior[i].attempt == prior[j].attempt ==> IsOpen(prior[i])
    decreases j
  {
    if i < j - 1 {
      AttemptShape(prior, i, j - 1);
    }
  }

  predicate SameStep(a: RecoveryAttempt, b: RecoveryAttempt) {
    a.runId == b.runId && KeyOf(a.execution) == KeyOf(b.execution)
  }

  lemma NumberedUpTo(log: seq<RecoveryAttempt>, n: nat)
    requires Numbered(log) && n <= |log|
    ensures Numbered(log[..n])
  {
    forall i | 0 <= i < n
      ensures log[..n][..i] == log[..i]
    {
    }
  }

  /** The latest record of a step is the one behind which it has no other. */
  lemma {:induction false} LatestOfStep(log: seq<RecoveryAttempt>, a: RecoveryAttempt, i: int)
    requires -1 <= i < |log| && (i >= 0 ==> SameStep(log[i], a))
    requires forall k | i < k < |log| :: !SameStep(log[k], a)
    ensures var prior := OfStep(log, a.runId, KeyOf(a.execution));
            if i < 0 then prior == [] else prior != [] && prior[|prior| - 1] == log[i]
  {
    if i < |log| - 1 {
      LatestOfStep(log[..|log| - 1], a, i);
    }
  }

  /** The record of a step keeps the attempt of its record before, if that one is pending or running; otherwise it
      opens the next attempt, and the first record of a step the first. */
  lemma AttemptIs(log: seq<RecoveryAttempt>, i: int, j: nat)
    requires Numbered(log) && -1 <= i < j < |log|
    requires i >= 0 ==> log[i].runId == log[j].runId && KeyOf(log[i].execution) == KeyOf(log[j].execution)
    requires forall k | i < k < j :: log[k].runId != log[j].runId || KeyOf(log[k].execution) != KeyOf(log[j].execution)
    ensures i < 0 ==> log[j].attempt == 1
    ensures i >= 0 && log[i].execution.status in {Pending, Running} ==> log[j].attempt == log[i].attempt
    ensures i >= 0 && log[i].execution.status !in {Pending, Running} ==> log[j].attempt == log[i].attempt + 1
  {
    NumberedUpTo(log, j);
    AttemptsAreContiguous(log[..j], log[j].runId, KeyOf(log[j].execution));
    LatestOfStep(log[..j], log[j], i);
  }

  // ----- Snapshots -----

  /** Dictionary update: the value of a known key changes in place, a new key comes last. */
  function Assign(latest: seq<StepExecution>, e: StepExecution): seq<StepExecution> {
    if latest == [] then [e]
    else if KeyOf(latest[0]) == KeyOf(e) then [e] + latest[1..]
    else [latest[0]] + Assign(latest[1..], e)
  }

  function LatestOf(log: seq<RecoveryAttempt>): seq<StepExecution> {
    if log == [] then [] else Assign(LatestOf(log[..|log| - 1]), log[|log| - 1].execution)
  }

  function Merged(c: ContextUpdate, u: ContextUpdate): ContextUpdate {
    ContextUpdate(AppendUnique(c.filesRead, u.filesRead), AppendUnique(c.filesModified, u.filesModified),
                  AppendUnique(c.observations, u.observations))
  }

  predicate Contributes(a: RecoveryAttempt) {
    a.execution.status == Completed && a.update.Some?
  }

  function ContextOf(log: seq<RecoveryAttempt>): ContextUpdate {
    if log == [] then EMPTY_CONTEXT
    else
      var c, a := ContextOf(log[..|log| - 1]), log[|log| - 1];
      if Contributes(a) then Merged(c, a.update.value) else c
  }

  function SnapshotOf(log: seq<RecoveryAttempt>, version: nat): RecoverySnapshot {
    RecoverySnapshot(log, LatestOf(log), ContextOf(log), version)
  }

  method AppendUniqueTo(target: seq<string>, values: seq<string>) returns (r: seq<string>)
    ensures r == AppendUnique(target, values)
  {
    r := target;
    for i := 0 to |values|
      invariant AppendUnique(r, values[i..]) == AppendUnique(target, values)
    {
      assert values[i..][1..] == values[i + 1..];
      if values[i] !in r {
        r := r + [values[i]];
      }
    }
  }

  lemma {:induction false} AssignAt(latest: seq<StepExecution>, e: StepExecution, i: nat)
    requires i <= |latest| && Absent(latest[..i], KeyOf(e)) && (i < |latest| ==> KeyOf(latest[i]) == KeyOf(e))
    ensures Assign(latest, e) == latest[..i] + [e] + if i == |latest| then [] else latest[i + 1..]
  {
    if i > 0 {
      assert KeyOf(latest[..i][0]) != KeyOf(e);
      assert latest[1..][..i - 1] == latest[..i][1..];
      AssignAt(latest[1..], e, i - 1);
      assert latest[..i] == [latest[0]] + latest[1..][..i - 1];
    }
  }

  method AssignTo(latest: seq<StepExecution>, e: StepExecution) returns (r: seq<StepExecution>)
    ensures r == Assign(latest, e)
  {
    var i := 0;
    while i < |latest| && KeyOf(latest[i]) != KeyOf(e)
      invariant i <= |latest| && Absent(latest[..i], KeyOf(e))
    {
      i := i + 1;
    }
    AssignAt(latest, e, i);
    r := if i == |latest| then latest + [e] else latest[i := e];
  }

  method Snapshot(log: seq<RecoveryAttempt>, version: nat) returns (s: RecoverySnapshot)
    ensures s == SnapshotOf(log, version)
  {
    var latest: seq<StepExecution> := [];
    var filesRead, filesModified, observations := [], [], [];
    for i := 0 to |log|
      invariant latest == LatestOf(log[..i])
      invariant ContextUpdate(filesRead, filesModified, observations) == ContextOf(log[..i])
    {
      assert log[..i + 1][..i] == log[..i];
      var item := log[i];
      latest := AssignTo(latest, item.execution);
      if item.execution.status == Completed && item.update.Some? {
        filesRead := AppendUniqueTo(filesRead, item.update.value.filesRead);
        filesModified := AppendUniqueTo(filesModified, item.update.value.filesModified);
        observations := AppendUniqueTo(observations, item.update.value.observations);
      }
    }
    assert log[..|log|] == log;
    s := RecoverySnapshot(log, latest, ContextUpdate(filesRead, filesModified, observations), version);
  }

  predicate NoLater(a: RecoveryAttempt, b: RecoveryAttempt) {
    a.version <= b.version
  }

  /** None stands for the error of a log and a checkpoint without a common version. */
  function RestoreOf(log: seq<RecoveryAttempt>, runId: string, checkpointVersion: nat): Option<RecoverySnapshot> {
    var attempts := StableSort(OfRun(log, runId), NoLater);
    if attempts == [] then Some(RecoverySnapshot([], [], EMPTY_CONTEXT, checkpointVersion))
    else if attempts[|attempts| - 1].version != checkpointVersion then None
    else Some(SnapshotOf(attempts, checkpointVersion))
  }

  class InMemoryStepRecoveryStore {
    var attempts: seq<RecoveryAttempt>

    constructor ()
      ensures attempts == []
    {
      attempts := [];
    }

    method Record(runId: string, e: StepExecution, update: Option<ContextUpdate>, recovery: bool, version: nat)
      returns (record: RecoveryAttempt)
      modifies this
      ensures record == NewAttempt(old(attempts), runId, e, update, recovery, version)
      ensures attempts == old(attempts) + [record]
      ensures old(Numbered(attempts)) ==> Numbered(attempts)
    {
      var prior := OfStep(attempts, runId, KeyOf(e));
      var attempt := |Attempts(prior)| + 1;
      if prior != [] && IsOpen(prior[|prior| - 1]) {
        attempt := prior[|prior| - 1].attempt;
      }
      record := RecoveryAttempt(runId, attempt, DurableExecution(e), update, recovery, version);
      RecordedIsNumbered(attempts, record);
      attempts := attempts + [record];
    }

    method Restore(runId: string, checkpointVersion: nat) returns (snapshot: Option<RecoverySnapshot>)
      ensures snapshot == RestoreOf(attempts, runId, checkpointVersion)
    {
      var mine := StableSort(OfRun(attempts, runId), NoLater);
      if mine == [] {
        return Some(RecoverySnapshot([], [], EMPTY_CONTEXT, checkpointVersion));
      }
      if mine[|mine| - 1].version != checkpointVersion {
        return None;
      }
      var s := Snapshot(mine, checkpointVersion);
      snapshot := Some(s);
    }

    function History(runId: string): seq<RecoveryAttempt>
      reads this
    {
      OfRun(attempts, runId)
    }
  }

  lemma RecordedIsNumbered(log: seq<RecoveryAttempt>, a: RecoveryAttempt)
    requires a.attempt == NextAttempt(OfStep(log, a.runId, KeyOf(a.execution)))
    ensures Numbered(log) ==> Numbered(log + [a])
  {
    var all := log + [a];
    forall i | 0 <= i < |all|
      ensures all[..i] == log[..i]
    {
    }
    assert all[..|log|] == log;
  }

  // ----- Runs share a store without touching each other -----

  lemma OfRunAppend(log: seq<RecoveryAttempt>, a: RecoveryAttempt, runId: string)
    ensures OfRun(log + [a], runId) == OfRun(log, runId) + if a.runId == runId then [a] else []
  {
    assert (log + [a])[..|log|] == log;
  }

  lemma {:induction false} OfRunTwice(log: seq<RecoveryAttempt>, runId: string)
    ensures OfRun(OfRun(log, runId), runId) == OfRun(log, runId)
  {
    if log != [] {
      var front, a := log[..|log| - 1], log[|log| - 1];
      OfRunTwice(front, runId);
      if a.runId == runId {
        OfRunAppend(OfRun(front, runId), a, runId);
      } else {
        assert OfRun(front, runId) + [] == OfRun(front, runId);
      }
    }
  }

  lemma {:induction false} OfStepProjects(log: seq<RecoveryAttempt>, runId: string, key: Key)
    ensures OfStep(OfRun(log, runId), runId, key) == OfStep(log, runId, key)
  {
    if log != [] {
      var front, a := log[..|log| - 1], log[|log| - 1];
      OfStepProjects(front, runId, key);
      if a.runId == runId {
        assert (OfRun(front, runId) + [a])[..|OfRun(front, runId)|] == OfRun(front, runId);
      } else {
        assert OfRun(front, runId) + [] == OfRun(front, runId);
      }
    }
  }

  /** What is recorded and restored for a run depends on its own records only. */
  lemma RunsAreSeparate(log: seq<RecoveryAttempt>, runId: string, e: StepExecution, update: Option<ContextUpdate>,
                        recovery: bool, version: nat)
    ensures NewAttempt(OfRun(log, runId), runId, e, update, recovery, version)
      == NewAttempt(log, runId, e, update, recovery, version)
    ensures RestoreOf(OfRun(log, runId), runId, version) == RestoreOf(log, runId, version)
  {
    OfStepProjects(log, runId, KeyOf(e));
    OfRunTwice(log, runId);
  }
}

/** Plans, step executions and the immutable agent state that the coordinators pass on. */
module PlanState {
  import opened Text

  datatype Status = Pending | Running | Interrupted | Completed | Failed | Skipped

  datatype PlanStep = PlanStep(id: string, intent: string, criterion: string)
  datatype Plan = Plan(revision: nat, goal: string, steps: seq<PlanStep>)

  datatype StepExecution = StepExecution(
    revision: nat, stepId: string, status: Status,
    result: Option<string>, error: Option<string>, evidence: Option<string>)

  datatype AgentState = AgentState(
    goal: string, plans: seq<Plan>, executions: seq<StepExecution>, summary: Option<string>)

  /** A step of a revision */
  type Key = (nat, string)

  function KeyOf(e: StepExecution): Key {
    (e.revision, e.stepId)
  }

  // ----- Constructor invariants -----

  predicate ValidStep(s: PlanStep) {
    !Blank(s.id) && !Blank(s.intent) && !Blank(s.criterion)
  }

  predicate ValidPlan(p: Plan) {
    && 1 <= p.revision <= 3 && !Blank(p.goal) && p.steps != []
    && (forall i | 0 <= i < |p.steps| :: ValidStep(p.steps[i]))
    && forall i, j | 0 <= i < j < |p.steps| :: p.steps[i].id != p.steps[j].id
  }

  predicate ValidExecution(e: StepExecution) {
    && 1 <= e.revision <= 3 && !Blank(e.stepId)
    && (e.status == Completed && e.evidence.Some? ==> !Blank(e.evidence.value))
  }

  predicate UniqueKeys(es: seq<StepExecution>) {
    forall i, j | 0 <= i < j < |es| :: KeyOf(es[i]) != KeyOf(es[j])
  }

  predicate HasStep(plans: seq<Plan>, key: Key) {
    exists i, j | 0 <= i < |plans| && 0 <= j < |plans[i].steps| :: (plans[i].revision, plans[i].steps[j].id) == key
  }

  predicate PlanFits(goal: string, plans: seq<Plan>, i: nat) {
    i < |plans| && ValidPlan(plans[i]) && plans[i].revision == i + 1 && plans[i].goal == goal
  }

  predicate Placed(plans: seq<Plan>, e: StepExecution) {
    ValidExecution(e) && HasStep(plans, KeyOf(e))
  }

  predicate Associated(plans: seq<Plan>, es: seq<StepExecution>) {
    forall i {:trigger Placed(plans, es[i])} | 0 <= i < |es| :: Placed(plans, es[i])
  }

  predicate ValidState(s: AgentState) {
    && !Blank(s.goal)
    && (forall i: nat {:trigger PlanFits(s.goal, s.plans, i)} | i < |s.plans| :: PlanFits(s.goal, s.plans, i))
    && UniqueKeys(s.executions)
    && Associated(s.plans, s.executions)
  }

  lemma LatestFits(s: AgentState)
    requires ValidState(s) && s.plans != []
    ensures ValidPlan(s.plans[|s.plans| - 1]) && s.plans[|s.plans| - 1].revision == |s.plans| <= 3
  {
    assert PlanFits(s.goal, s.plans, |s.plans| - 1);
  }

  // ----- Updates -----

  /** Append a plan; None stands for the error when the new state is invalid. */
  function WithPlan(s: AgentState, p: Plan): (r: Option<AgentState>)
    ensures r.Some? ==> ValidPlan(p) && ValidState(r.value) && r.value == s.(plans := s.plans + [p])
  {
    var t := s.(plans := s.plans + [p]);
    if ValidPlan(p) && ValidState(t) then Some(t) else None
  }

  function Without(es: seq<StepExecution>, key: Key): seq<StepExecution> {
    if es == [] then []
    else Without(es[..|es| - 1], key) + if KeyOf(es[|es| - 1]) == key then [] else [es[|es| - 1]]
  }

  /** The list with `e` as the newest execution of its step */
  function Put(es: seq<StepExecution>, e: StepExecution): seq<StepExecution> {
    Without(es, KeyOf(e)) + [e]
  }

  function WithExecution(s: AgentState, e: StepExecution): (r: Option<AgentState>)
    ensures r.Some? ==> ValidState(r.value) && r.value == s.(executions := Put(s.executions, e))
  {
    var t := s.(executions := Put(s.executions, e));
    if ValidExecution(e) && ValidState(t) then Some(t) else None
  }

  lemma {:induction false} WithoutMembers(es: seq<StepExecution>, key: Key)
    ensures forall e :: e in Without(es, key) <==> e in es && KeyOf(e) != key
    ensures UniqueKeys(es) ==> UniqueKeys(Without(es, key))
  {
    if es != [] {
      var n := |es| - 1;
      WithoutMembers(es[..n], key);
      assert es == es[..n] + [es[n]];
      if UniqueKeys(es) {
        assert forall e | e in es[..n] :: KeyOf(e) != KeyOf(es[n]);
      }
    }
  }

  /** Recording an execution of a planned step never fails and keeps the state valid. */
  lemma PutIsValid(s: AgentState, e: StepExecution)
    requires ValidState(s) && ValidExecution(e) && HasStep(s.plans, KeyOf(e))
    ensures WithExecution(s, e) == Some(s.(executions := Put(s.executions, e)))
  {
    WithoutMembers(s.executions, KeyOf(e));
    var es := Put(s.executions, e);
    forall i, j | 0 <= i < j < |es|
      ensures KeyOf(es[i]) != KeyOf(es[j])
    {
      assert es[i] in Without(s.executions, KeyOf(e));
    }
    forall i | 0 <= i < |es|
      ensures Placed(s.plans, es[i])
    {
      if i < |es| - 1 {
        assert es[i] in Without(s.executions, KeyOf(e)) && es[i] in s.executions;
        var k :| 0 <= k < |s.executions| && s.executions[k] == es[i];
        assert Placed(s.plans, s.executions[k]);
      }
    }
  }

  /** A step of some plan is one of the longer history. */
  lemma HasStepAfter(plans: seq<Plan>, p: Plan, key: Key)
    requires HasStep(plans, key)
    ensures HasStep(plans + [p], key)
  {
    var i, j :| 0 <= i < |plans| && 0 <= j < |plans[i].steps| && (plans[i].revision, plans[i].steps[j].id) == key;
    assert (plans + [p])[i] == plans[i];
  }

  /** A plan is taken exactly when it is the next of at most three revisions, for the same goal, with at least one step,
      distinct step identifiers and no blank text. */
  lemma PlanIsTakenIff(s: AgentState, p: Plan)
    requires ValidState(s)
    ensures WithPlan(s, p).Some? <==>
      && p.revision == |s.plans| + 1 <= 3 && p.goal == s.goal && p.steps != []
      && (forall i | 0 <= i < |p.steps| ::
            !Blank(p.steps[i].id) && !Blank(p.steps[i].intent) && !Blank(p.steps[i].criterion))
      && forall i, j | 0 <= i < j < |p.steps| :: p.steps[i].id != p.steps[j].id
  {
    var n, t := |s.plans|, s.(plans := s.plans + [p]);
    assert t.plans[n] == p;
    if WithPlan(s, p).Some? {
      assert PlanFits(t.goal, t.plans, n);
      assert forall i | 0 <= i < |p.steps| :: ValidStep(p.steps[i]);
    } else if ValidPlan(p) && p.revision == n + 1 && p.goal == s.goal {
      forall i: nat | i < |t.plans|
        ensures PlanFits(t.goal, t.plans, i)
      {
        if i < n {
          assert PlanFits(s.goal, s.plans, i);
        }
      }
      forall i | 0 <= i < |t.executions|
        ensures Placed(t.plans, t.executions[i])
      {
        assert Placed(s.plans, s.executions[i]);
        HasStepAfter(s.plans, p, KeyOf(s.executions[i]));
      }
    }
  }

  /** An execution is taken exactly when some plan of its revision has its step, and a completed one has no blank
      evidence. */
  lemma ExecutionIsTakenIff(s: AgentState, e: StepExecution)
    requires ValidState(s)
    ensures WithExecution(s, e).Some? <==>
      && (exists i, j | 0 <= i < |s.plans| && 0 <= j < |s.plans[i].steps| ::
            s.plans[i].revision == e.revision && s.plans[i].steps[j].id == e.stepId)
      && (e.status == Completed ==> e.evidence == None || !Blank(e.evidence.value))
  {
    var es := Put(s.executions, e);
    if WithExecution(s, e).Some? {
      assert es[|es| - 1] == e && Placed(s.plans, es[|es| - 1]);
    } else if HasStep(s.plans, KeyOf(e)) && (e.status == Completed ==> e.evidence == None || !Blank(e.evidence.value)) {
      var i, j :| 0 <= i < |s.plans| && 0 <= j < |s.plans[i].steps| &&
                  (s.plans[i].revision, s.plans[i].steps[j].id) == KeyOf(e);
      assert PlanFits(s.goal, s.plans, i) && ValidStep(s.plans[i].steps[j]);
      PutIsValid(s, e);
    }
    if exists i, j | 0 <= i < |s.plans| && 0 <= j < |s.plans[i].steps| ::
         s.plans[i].revision == e.revision && s.plans[i].steps[j].id == e.stepId {
      assert HasStep(s.plans, KeyOf(e));
    }
  }

  /** No execution of the step is recorded. */
  predicate Absent(es: seq<StepExecution>, key: Key) {
    forall i | 0 <= i < |es| :: KeyOf(es[i]) != key
  }

  predicate Newest(es: seq<StepExecution>, key: Key) {
    es != [] && KeyOf(es[|es| - 1]) == key
  }

  lemma {:induction false} WithoutAbsent(es: seq<StepExecution>, key: Key)
    requires Absent(es, key)
    ensures Without(es, key) == es
  {
    if es != [] {
      WithoutAbsent(es[..|es| - 1], key);
    }
  }

  /** Replacing the newest execution keeps the order of the others. */
  lemma PutLast(es: seq<StepExecution>, before: StepExecution, e: StepExecution)
    requires UniqueKeys(es + [before]) && KeyOf(before) == KeyOf(e)
    ensures Put(es + [before], e) == es + [e]
  {
    var all := es + [before];
    assert all[..|es|] == es && all[|es|] == before;
    forall i | 0 <= i < |es|
      ensures KeyOf(es[i]) != KeyOf(e)
    {
      assert KeyOf(all[i]) != KeyOf(all[|es|]);
    }
    WithoutAbsent(es, KeyOf(e));
  }

  lemma PutNew(es: seq<StepExecution>, e: StepExecution)
    requires Absent(es, KeyOf(e))
    ensures Put(es, e) == es + [e]
  {
    WithoutAbsent(es, KeyOf(e));
  }

  // ----- Queries -----

  function Find(es: seq<StepExecution>, key: Key): Option<StepExecution> {
    if es == [] then None
    else if KeyOf(es[0]) == key then Some(es[0])
    else Find(es[1..], key)
  }

  predicate HasStatus(es: seq<StepExecution>, key: Key, status: Status) {
    Find(es, key).Some? && Find(es, key).value.status == status
  }

  lemma {:induction false} FindFinds(es: seq<StepExecution>, key: Key)
    ensures var r := Find(es, key);
      if r.Some? then r.value in es && KeyOf(r.value) == key else forall e | e in es :: KeyOf(e) != key
  {
    if es != [] && KeyOf(es[0]) != key {
      FindFinds(es[1..], key);
      assert es == [es[0]] + es[1..];
    }
  }

  lemma {:induction false} FindIs(es: seq<StepExecution>, e: StepExecution)
    requires UniqueKeys(es) && e in es
    ensures Find(es, KeyOf(e)) == Some(e)
  {
    FindFinds(es, KeyOf(e));
    var i :| 0 <= i < |es| && es[i] == e;
    var f := Find(es, KeyOf(e)).value;
    var j :| 0 <= j < |es| && es[j] == f;
  }

  lemma FindAfterPut(es: seq<StepExecution>, e: StepExecution, key: Key)
    requires UniqueKeys(es)
    ensures Find(Put(es, e), key) == if key == KeyOf(e) then Some(e) else Find(es, key)
  {
    WithoutMembers(es, KeyOf(e));
    FindFinds(es, key);
    FindFinds(Put(es, e), key);
    var all := Put(es, e);
    assert UniqueKeys(all) by {
      forall i, j | 0 <= i < j < |all|
        ensures KeyOf(all[i]) != KeyOf(all[j])
      {
        assert all[i] in Without(es, KeyOf(e));
      }
    }
    if key == KeyOf(e) {
      assert all[|all| - 1] == e;
      FindIs(all, e);
    } else if Find(es, key).Some? {
      var f := Find(es, key).value;
      assert f in Without(es, KeyOf(e)) && f in all;
      FindIs(all, f);
    } else {
      assert forall x | x in all :: x == e || x in es;
    }
  }
}

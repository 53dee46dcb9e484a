/** Ordered conversations: the in-memory store, and one service whose concurrent calls interleave at their awaits. */
module Conversation {
  import opened Text

  datatype Mode = Direct | ToolAgent | React | PlanExecute
  datatype Status = Pending | Running | Completed | Failed | Blocked

  datatype Turn = Turn(
    sequence: nat, runId: string, mode: Mode, input: string, status: Status, answer: Option<string>,
    error: Option<string>)

  predicate Active(t: Turn) {
    t.status == Pending || t.status == Running
  }

  predicate Ephemeral(m: Mode) {
    m != PlanExecute
  }

  /** The same turn, apart from how it ended */
  predicate SameTurn(a: Turn, b: Turn) {
    a.sequence == b.sequence && a.runId == b.runId && a.mode == b.mode && a.input == b.input
  }

  // ----- The store -----

  function FirstActive(turns: seq<Turn>): Option<Turn> {
    if turns == [] then None
    else if Active(turns[0]) then Some(turns[0])
    else FirstActive(turns[1..])
  }

  /** None stands for a refusal: some turn is active, or the sequence does not continue the conversation. */
  function Appended(turns: seq<Turn>, t: Turn): Option<seq<Turn>> {
    if FirstActive(turns).Some? || t.sequence != |turns| + 1 then None else Some(turns + [t])
  }

  /** The first turn of that sequence is replaced; None when there is none. */
  function Updated(turns: seq<Turn>, t: Turn): Option<seq<Turn>> {
    if turns == [] then None
    else if turns[0].sequence == t.sequence then Some([t] + turns[1..])
    else
      var rest := Updated(turns[1..], t);
      if rest.None? then None else Some([turns[0]] + rest.value)
  }

  lemma {:induction false} FirstActiveAfter(turns: seq<Turn>, i: nat)
    requires i <= |turns| && forall j | 0 <= j < i :: !Active(turns[j])
    ensures FirstActive(turns) == FirstActive(turns[i..])
  {
    if i > 0 {
      FirstActiveAfter(turns[1..], i - 1);
      assert turns[1..][i - 1..] == turns[i..];
    } else {
      assert turns[i..] == turns;
    }
  }

  lemma {:induction false} UpdatedAt(turns: seq<Turn>, t: Turn, i: nat)
    requires i <= |turns| && forall j | 0 <= j < i :: turns[j].sequence != t.sequence
    requires i < |turns| ==> turns[i].sequence == t.sequence
    ensures Updated(turns, t) == if i == |turns| then None else Some(turns[i := t])
  {
    if i > 0 {
      UpdatedAt(turns[1..], t, i - 1);
      assert i < |turns| ==> [turns[0]] + turns[1..][i - 1 := t] == turns[i := t];
    } else {
      assert turns != [] ==> [t] + turns[1..] == turns[0 := t];
    }
  }

  class InMemoryConversationStore {
    var conversations: map<string, seq<Turn>>

    constructor ()
      ensures conversations == map[]
    {
      conversations := map[];
    }

    /** The turns of a conversation; unknown conversations have none yet. */
    function Turns(convId: string): seq<Turn>
      reads this
    {
      if convId in conversations then conversations[convId] else []
    }

    method Append(convId: string, t: Turn) returns (ok: bool)
      modifies this
      ensures ok == Appended(old(Turns(convId)), t).Some?
      ensures ok <==>
        && t.sequence == |old(Turns(convId))| + 1
        && forall x | x in old(Turns(convId)) :: x.status != Pending && x.status != Running
      ensures Turns(convId) == if ok then Appended(old(Turns(convId)), t).value else old(Turns(convId))
      ensures forall id | id != convId :: Turns(id) == old(Turns(id))
    {
      var turns := Turns(convId);
      conversations := conversations[convId := turns];
      var i := 0;
      while i < |turns| && !Active(turns[i])
        invariant i <= |turns| && forall j | 0 <= j < i :: !Active(turns[j])
      {
        i := i + 1;
      }
      FirstActiveAfter(turns, i);
      assert i < |turns| ==> turns[i] in turns;
      if i < |turns| || t.sequence != |turns| + 1 {
        return false;
      }
      conversations := conversations[convId := turns + [t]];
      ok := true;
    }

    method Update(convId: string, t: Turn) returns (ok: bool)
      modifies this
      ensures ok == Updated(old(Turns(convId)), t).Some?
      ensures Turns(convId) == if ok then Updated(old(Turns(convId)), t).value else old(Turns(convId))
      ensures forall id | id != convId :: Turns(id) == old(Turns(id))
    {
      var turns := Turns(convId);
      var i := 0;
      while i < |turns| && turns[i].sequence != t.sequence
        invariant i <= |turns| && forall j | 0 <= j < i :: turns[j].sequence != t.sequence
      {
        i := i + 1;
      }
      UpdatedAt(turns, t, i);
      if i == |turns| {
        return false;
      }
      conversations := conversations[convId := turns[i := t]];
      ok := true;
    }
  }

  // ----- Calls in progress -----

  /** What a call has captured at the await where it stands */
  datatype Task =
    | Reconciling(active: Turn, request: Request)
    | Selecting(history: seq<Turn>, sequence: nat, runId: string, request: Request)
    | Executing(turn: Turn, history: seq<Turn>)
    | Resuming(resumed: Turn)

  /** A mode of None is chosen by the mode selector. */
  datatype Request = Request(input: string, mode: Option<Mode>)

  datatype Answer = Answer(status: Status, answer: Option<string>, error: Option<string>)

  datatype Event =
    | Begin(task: nat, request: Request, create: bool, runId: string)
    | Reconciled(task: nat, result: Option<Answer>, runId: string)
    | Selected(task: nat, mode: Mode)
    | Finished(task: nat, answer: Answer)
    | Cancelled(task: nat)
    | Abandoned(task: nat)
    | BeginResume(task: nat)
    | Restart

  /** One conversation on one service: its turns, the histories its turns were started with, the ephemeral
      runs at work in this process, and the calls in progress. `lookup` tells whether results of durable runs
      can be looked up, `selector` whether there is a mode selector. */
  datatype State = State(
    turns: seq<Turn>, histories: seq<seq<Turn>>, live: set<string>, tasks: map<nat, Task>, lookup: bool, selector: bool)

  function Empty(lookup: bool, selector: bool): State {
    State([], [], {}, map[], lookup, selector)
  }

  function Terminal(t: Turn, a: Answer): Turn {
    t.(status := a.status, answer := a.answer, error := a.error)
  }

  const LOST := Answer(Failed, None, Some("ephemeral conversation turn could not be recovered"))
  const INTERRUPTED := Answer(Failed, None, Some("conversation execution interrupted"))

  predicate Settles(a: Answer) {
    a.status == Completed || a.status == Failed || a.status == Blocked
  }

  function Without(tasks: map<nat, Task>, task: nat): map<nat, Task> {
    tasks - {task}
  }

  function Update(s: State, t: Turn): State {
    var turns := Updated(s.turns, t);
    if turns.None? then s else s.(turns := turns.value)
  }

  // ----- The segments of a call between its awaits -----

  /** Append the turn as pending and mark it running; a refused turn ends the call. */
  function Launch(s: State, task: nat, history: seq<Turn>, sequence: nat, runId: string, mode: Mode, input: string)
    : State
  {
    var t := Turn(sequence, runId, mode, input, Pending, None, None);
    var turns := Appended(s.turns, t);
    if turns.None? then s.(tasks := Without(s.tasks, task))
    else
      var running := t.(status := Running);
      Update(s.(turns := turns.value, histories := s.histories + [history],
                live := if Ephemeral(mode) then s.live + {runId} else s.live,
                tasks := s.tasks[task := Executing(running, history)]), running)
  }

  /** Without a selector, Direct is the mode of a request that names none. */
  function ModeOf(request: Request): Mode {
    if request.mode.Some? then request.mode.value else Direct
  }

  /** With the history captured, choose the mode or launch at once. */
  function Choose(s: State, task: nat, history: seq<Turn>, sequence: nat, runId: string, request: Request): State {
    if request.mode.None? && s.selector then
      s.(tasks := s.tasks[task := Selecting(history, sequence, runId, request)])
    else
      Launch(s, task, history, sequence, runId, ModeOf(request), request.input)
  }

  /** Capture the history after reconciliation; an active turn refuses the call. */
  function Capture(s: State, task: nat, runId: string, request: Request): State {
    if FirstActive(s.turns).Some? then s.(tasks := Without(s.tasks, task))
    else Choose(s, task, s.turns, |s.turns| + 1, runId, request)
  }

  function BeginRun(s: State, task: nat, request: Request, create: bool, runId: string): State {
    if create then Choose(s, task, [], 1, runId, request)
    else
      match FirstActive(s.turns)
      case None => Capture(s, task, runId, request)
      case Some(active) =>
        if Ephemeral(active.mode) then
          Capture(if active.runId in s.live then s else Update(s, Terminal(active, LOST)), task, runId, request)
        else if !s.lookup then Capture(s, task, runId, request)
        else s.(tasks := s.tasks[task := Reconciling(active, request)])
  }

  function FinishReconcile(s: State, task: nat, active: Turn, request: Request, result: Option<Answer>, runId: string)
    : State
  {
    Capture(if result.Some? && Settles(result.value) then Update(s, Terminal(active, result.value)) else s,
            task, runId, request)
  }

  /** The runner has answered: the turn is overwritten with the answer. */
  function FinishRun(s: State, task: nat, t: Turn, a: Answer): State {
    Update(s.(live := s.live - {t.runId}, tasks := Without(s.tasks, task)), Terminal(t, a))
  }

  predicate Enabled(s: State, e: Event) {
    match e
    case Begin(task, request, create, _) => task !in s.tasks && (create || s.turns != [])
    case Reconciled(task, _, _) => task in s.tasks && s.tasks[task].Reconciling?
    case Selected(task, _) => task in s.tasks && s.tasks[task].Selecting?
    case Finished(task, answer) =>
      task in s.tasks && (s.tasks[task].Executing? || s.tasks[task].Resuming?) && Settles(answer)
    case Cancelled(task) => task in s.tasks && s.tasks[task].Executing?
    case Abandoned(task) => task in s.tasks
    case BeginResume(task) => task !in s.tasks
    case Restart => true
  }

  function Step(s: State, e: Event): State {
    if !Enabled(s, e) then s
    else
      match e
      case Begin(task, request, create, runId) => BeginRun(s, task, request, create, runId)
      case Reconciled(task, result, runId) =>
        FinishReconcile(s, task, s.tasks[task].active, s.tasks[task].request, result, runId)
      case Selected(task, mode) =>
        var c := s.tasks[task];
        Launch(s, task, c.history, c.sequence, c.runId, mode, c.request.input)
      case Finished(task, answer) =>
        var c := s.tasks[task];
        if c.Executing? then FinishRun(s, task, c.turn, answer)
        else Update(s.(tasks := Without(s.tasks, task)), Terminal(c.resumed, answer))
      case Cancelled(task) => FinishRun(s, task, s.tasks[task].turn, INTERRUPTED)
      case Abandoned(task) => s.(tasks := Without(s.tasks, task))
      case BeginResume(task) =>
        var active := FirstActive(s.turns);
        if active.None? || Ephemeral(active.value.mode) then s
        else s.(tasks := s.tasks[task := Resuming(active.value)])
      case Restart => s.(live := {}, tasks := map[])
  }

  function Run(s: State, events: seq<Event>): State {
    if events == [] then s else Step(Run(s, events[..|events| - 1]), events[|events| - 1])
  }

  // ----- The invariant -----

  predicate Numbered(turns: seq<Turn>) {
    forall i | 0 <= i < |turns| :: turns[i].sequence == i + 1
  }

  predicate OnlyLastActive(turns: seq<Turn>) {
    forall i | 0 <= i < |turns| - 1 :: !Active(turns[i])
  }

  /** `t` is a turn of the conversation, apart from how it ended. */
  predicate IsTurn(turns: seq<Turn>, t: Turn) {
    1 <= t.sequence <= |turns| && SameTurn(turns[t.sequence - 1], t)
  }

  /** `history` are the first turns of the conversation, in order, every one of them over. */
  predicate IsHistory(turns: seq<Turn>, history: seq<Turn>) {
    && |history| <= |turns|
    && forall i | 0 <= i < |history| :: SameTurn(turns[i], history[i]) && !Active(history[i])
  }

  predicate TaskFits(turns: seq<Turn>, task: Task) {
    match task
    case Reconciling(active, _) => IsTurn(turns, active)
    case Selecting(history, sequence, _, _) => IsHistory(turns, history) && sequence == |history| + 1
    case Executing(turn, history) => IsTurn(turns, turn)
    case Resuming(turn) => IsTurn(turns, turn)
  }

  predicate TasksFit(turns: seq<Turn>, tasks: map<nat, Task>) {
    forall task | task in tasks :: TaskFits(turns, tasks[task])
  }

  /** Turn k + 1 was started with a history of exactly the k turns before it. */
  predicate HistoriesFit(turns: seq<Turn>, histories: seq<seq<Turn>>) {
    && |histories| == |turns|
    && forall k | 0 <= k < |turns| :: |histories[k]| == k && IsHistory(turns, histories[k])
  }

  predicate Inv(s: State) {
    && Numbered(s.turns) && OnlyLastActive(s.turns)
    && TasksFit(s.turns, s.tasks)
    && HistoriesFit(s.turns, s.histories)
  }

  // ----- Updates keep the turns -----

  /** The same turns, apart from how they ended, and none has become active again. */
  predicate Refines(a: seq<Turn>, b: seq<Turn>) {
    && |a| <= |b|
    && forall i | 0 <= i < |a| :: SameTurn(a[i], b[i]) && (Active(b[i]) ==> Active(a[i]))
  }

  lemma RefinedHistory(a: seq<Turn>, b: seq<Turn>, history: seq<Turn>)
    requires Refines(a, b) && IsHistory(a, history)
    ensures IsHistory(b, history)
  {
  }

  lemma RefinedTasks(a: seq<Turn>, b: seq<Turn>, tasks: map<nat, Task>)
    requires Refines(a, b) && TasksFit(a, tasks)
    ensures TasksFit(b, tasks)
  {
    forall task | task in tasks
      ensures TaskFits(b, tasks[task])
    {
      assert TaskFits(a, tasks[task]);
    }
  }

  lemma RefinedHistories(a: seq<Turn>, b: seq<Turn>, histories: seq<seq<Turn>>)
    requires Refines(a, b) && |a| == |b| && HistoriesFit(a, histories)
    ensures HistoriesFit(b, histories)
  {
    forall k | 0 <= k < |b|
      ensures |histories[k]| == k && IsHistory(b, histories[k])
    {
      RefinedHistory(a, b, histories[k]);
    }
  }

  /** Settling a turn of the conversation changes that turn only. */
  lemma SettledRefines(turns: seq<Turn>, t: Turn, a: Answer)
    requires Numbered(turns) && IsTurn(turns, t) && Settles(a)
    ensures Updated(turns, Terminal(t, a)) == Some(turns[t.sequence - 1 := Terminal(t, a)])
    ensures Refines(turns, turns[t.sequence - 1 := Terminal(t, a)])
  {
    UpdatedAt(turns, Terminal(t, a), t.sequence - 1);
  }

  lemma SettleKeepsInv(s: State, t: Turn, a: Answer)
    requires Inv(s) && IsTurn(s.turns, t) && Settles(a)
    ensures Inv(Update(s, Terminal(t, a)))
    ensures Refines(s.turns, Update(s, Terminal(t, a)).turns) && |Update(s, Terminal(t, a)).turns| == |s.turns|
  {
    SettledRefines(s.turns, t, a);
    var turns := s.turns[t.sequence - 1 := Terminal(t, a)];
    RefinedTasks(s.turns, turns, s.tasks);
    RefinedHistories(s.turns, turns, s.histories);
  }

  lemma {:induction false} NoneActive(turns: seq<Turn>)
    ensures FirstActive(turns).None? <==> forall i | 0 <= i < |turns| :: !Active(turns[i])
    ensures FirstActive(turns).Some? ==> FirstActive(turns).value in turns && Active(FirstActive(turns).value)
  {
    if turns != [] {
      NoneActive(turns[1..]);
      assert turns == [turns[0]] + turns[1..];
    }
  }

  lemma ActiveIsTurn(turns: seq<Turn>)
    requires Numbered(turns) && FirstActive(turns).Some?
    ensures IsTurn(turns, FirstActive(turns).value)
  {
    NoneActive(turns);
    var i :| 0 <= i < |turns| && turns[i] == FirstActive(turns).value;
  }

  // ----- Every segment keeps the invariant -----

  /** The turns after launching turn `t` */
  lemma LaunchedTurns(turns: seq<Turn>, t: Turn)
    requires Numbered(turns) && t.sequence == |turns| + 1 && t.status == Pending
    ensures Updated(turns + [t], t.(status := Running)) == Some(turns + [t.(status := Running)])
  {
    UpdatedAt(turns + [t], t.(status := Running), |turns|);
    assert (turns + [t])[|turns| := t.(status := Running)] == turns + [t.(status := Running)];
  }

  lemma LaunchKeepsInv(s: State, task: nat, history: seq<Turn>, sequence: nat, runId: string, mode: Mode, input: string)
    requires Inv(s) && IsHistory(s.turns, history) && sequence == |history| + 1
    ensures Inv(Launch(s, task, history, sequence, runId, mode, input))
    ensures Refines(s.turns, Launch(s, task, history, sequence, runId, mode, input).turns)
  {
    var t := Turn(sequence, runId, mode, input, Pending, None, None);
    if Appended(s.turns, t).Some? {
      NoneActive(s.turns);
      LaunchedTurns(s.turns, t);
      var running := t.(status := Running);
      var turns := s.turns + [running];
      assert Refines(s.turns, turns);
      RefinedTasks(s.turns, turns, s.tasks);
      assert TaskFits(turns, Executing(running, history));
      LaunchedHistories(s.turns, turns, s.histories, history);
    }
  }

  lemma LaunchedHistories(a: seq<Turn>, b: seq<Turn>, histories: seq<seq<Turn>>, history: seq<Turn>)
    requires Refines(a, b) && |b| == |a| + 1 && HistoriesFit(a, histories)
    requires IsHistory(a, history) && |history| == |a|
    ensures HistoriesFit(b, histories + [history])
  {
    var all := histories + [history];
    forall k | 0 <= k < |b|
      ensures |all[k]| == k && IsHistory(b, all[k])
    {
      RefinedHistory(a, b, all[k]);
    }
  }

  lemma ChooseKeepsInv(s: State, task: nat, history: seq<Turn>, sequence: nat, runId: string, request: Request)
    requires Inv(s) && IsHistory(s.turns, history) && sequence == |history| + 1
    ensures Inv(Choose(s, task, history, sequence, runId, request))
    ensures Refines(s.turns, Choose(s, task, history, sequence, runId, request).turns)
  {
    if request.mode.None? && s.selector {
      assert TaskFits(s.turns, Selecting(history, sequence, runId, request));
    } else {
      LaunchKeepsInv(s, task, history, sequence, runId, ModeOf(request), request.input);
    }
  }

  lemma CaptureKeepsInv(s: State, task: nat, runId: string, request: Request)
    requires Inv(s)
    ensures Inv(Capture(s, task, runId, request))
    ensures Refines(s.turns, Capture(s, task, runId, request).turns)
  {
    NoneActive(s.turns);
    if FirstActive(s.turns).None? {
      ChooseKeepsInv(s, task, s.turns, |s.turns| + 1, runId, request);
    }
  }

  lemma BeginKeepsInv(s: State, task: nat, request: Request, create: bool, runId: string)
    requires Inv(s)
    ensures Inv(BeginRun(s, task, request, create, runId))
    ensures Refines(s.turns, BeginRun(s, task, request, create, runId).turns)
  {
    if create {
      ChooseKeepsInv(s, task, [], 1, runId, request);
    } else {
      var active := FirstActive(s.turns);
      if active.None? {
        CaptureKeepsInv(s, task, runId, request);
      } else {
        ActiveIsTurn(s.turns);
        if Ephemeral(active.value.mode) {
          if active.value.runId !in s.live {
            SettleKeepsInv(s, active.value, LOST);
          }
          CaptureKeepsInv(if active.value.runId in s.live then s else Update(s, Terminal(active.value, LOST)),
                          task, runId, request);
        } else if !s.lookup {
          CaptureKeepsInv(s, task, runId, request);
        }
      }
    }
  }

  lemma FinishKeepsInv(s: State, task: nat, t: Turn, a: Answer)
    requires Inv(s) && IsTurn(s.turns, t) && Settles(a)
    ensures Inv(FinishRun(s, task, t, a))
    ensures Refines(s.turns, FinishRun(s, task, t, a).turns)
  {
    SettleKeepsInv(s.(live := s.live - {t.runId}, tasks := Without(s.tasks, task)), t, a);
  }

  lemma ReconcileKeepsInv(s: State, task: nat, active: Turn, request: Request, result: Option<Answer>, runId: string)
    requires Inv(s) && IsTurn(s.turns, active)
    ensures Inv(FinishReconcile(s, task, active, request, result, runId))
    ensures Refines(s.turns, FinishReconcile(s, task, active, request, result, runId).turns)
  {
    if result.Some? && Settles(result.value) {
      SettleKeepsInv(s, active, result.value);
      CaptureKeepsInv(Update(s, Terminal(active, result.value)), task, runId, request);
    } else {
      CaptureKeepsInv(s, task, runId, request);
    }
  }

  lemma AnswerKeepsInv(s: State, task: nat, answer: Answer)
    requires Inv(s) && Enabled(s, Finished(task, answer))
    ensures Inv(Step(s, Finished(task, answer))) && Refines(s.turns, Step(s, Finished(task, answer)).turns)
  {
    var c := s.tasks[task];
    assert TaskFits(s.turns, c);
    if c.Executing? {
      FinishKeepsInv(s, task, c.turn, answer);
    } else {
      SettleKeepsInv(s.(tasks := Without(s.tasks, task)), c.resumed, answer);
    }
  }

  lemma BeginResumeKeepsInv(s: State, task: nat)
    requires Inv(s)
    ensures Inv(Step(s, BeginResume(task))) && Refines(s.turns, Step(s, BeginResume(task)).turns)
  {
    if FirstActive(s.turns).Some? {
      ActiveIsTurn(s.turns);
    }
  }

  lemma StepKeepsInv(s: State, e: Event)
    requires Inv(s)
    ensures Inv(Step(s, e))
    ensures Refines(s.turns, Step(s, e).turns)
  {
    if Enabled(s, e) {
      match e
      case Begin(task, request, create, runId) => BeginKeepsInv(s, task, request, create, runId);
      case Reconciled(task, result, runId) =>
        assert TaskFits(s.turns, s.tasks[task]);
        ReconcileKeepsInv(s, task, s.tasks[task].active, s.tasks[task].request, result, runId);
      case Selected(task, mode) =>
        var c := s.tasks[task];
        assert TaskFits(s.turns, c);
        LaunchKeepsInv(s, task, c.history, c.sequence, c.runId, mode, c.request.input);
      case Finished(task, answer) => AnswerKeepsInv(s, task, answer);
      case Cancelled(task) =>
        assert TaskFits(s.turns, s.tasks[task]);
        FinishKeepsInv(s, task, s.tasks[task].turn, INTERRUPTED);
      case Abandoned(task) =>
      case BeginResume(task) => BeginResumeKeepsInv(s, task);
      case Restart =>
    }
  }

  lemma {:induction false} RunKeepsInv(s: State, events: seq<Event>)
    requires Inv(s)
    ensures Inv(Run(s, events))
  {
    if events != [] {
      RunKeepsInv(s, events[..|events| - 1]);
      StepKeepsInv(Run(s, events[..|events| - 1]), events[|events| - 1]);
    }
  }

  // ----- Main results -----

  /** However calls interleave: sequences are 1..n, at most the last turn is active, and turn k was started
      with a history of exactly the k - 1 turns before it, in order, every one of them over by then. */
  lemma ConversationsAreOrdered(lookup: bool, selector: bool, events: seq<Event>, k: nat)
    requires k < |Run(Empty(lookup, selector), events).turns|
    ensures var s := Run(Empty(lookup, selector), events);
      && s.turns[k].sequence == k + 1
      && (Active(s.turns[k]) ==> k == |s.turns| - 1)
      && |s.histories| == |s.turns| && |s.histories[k]| == k
      && forall i | 0 <= i < k :: SameTurn(s.turns[i], s.histories[k][i]) && !Active(s.histories[k][i])
  {
    RunKeepsInv(Empty(lookup, selector), events);
  }

  /** Turns are never removed or renamed, and a turn that is over stays over. */
  lemma {:induction false} TurnsStay(s: State, events: seq<Event>)
    requires Inv(s)
    ensures Refines(s.turns, Run(s, events).turns)
  {
    if events != [] {
      var front := events[..|events| - 1];
      RunKeepsInv(s, front);
      TurnsStay(s, front);
      StepKeepsInv(Run(s, front), events[|events| - 1]);
    }
  }

  lemma RunOn(s: State, events: seq<Event>, e: Event)
    ensures Run(s, events + [e]) == Step(Run(s, events), e)
  {
    assert (events + [e])[..|events|] == events;
  }

  // ----- How turns begin and end -----

  /** Of the turns so far only that of this sequence has changed: it has this status, answer and error, and is otherwise
      the turn that it was. */
  predicate Stores(before: seq<Turn>, after: seq<Turn>, sequence: nat, status: Status, answer: Option<string>,
                   error: Option<string>) {
    && 1 <= sequence <= |before| <= |after|
    && (forall i | 0 <= i < |before| && i != sequence - 1 :: after[i] == before[i])
    && var t, u := before[sequence - 1], after[sequence - 1];
    && u.sequence == t.sequence && u.runId == t.runId && u.mode == t.mode && u.input == t.input
    && u.status == status && u.answer == answer && u.error == error
  }

  /** The three ways in which a turn can end */
  predicate EndedAs(status: Status) {
    status == Completed || status == Failed || status == Blocked
  }

  /** The turn that a call has captured, if it settles it */
  function CapturedBy(c: Task): Option<Turn> {
    match c
    case Reconciling(active, _) => Some(active)
    case Selecting(_, _, _, _) => None
    case Executing(turn, _) => Some(turn)
    case Resuming(turn) => Some(turn)
  }

  lemma UpdateStores(s: State, t: Turn, a: Answer)
    requires Inv(s) && IsTurn(s.turns, t) && Settles(a)
    ensures Stores(s.turns, Update(s, Terminal(t, a)).turns, t.sequence, a.status, a.answer, a.error)
    ensures |Update(s, Terminal(t, a)).turns| == |s.turns|
  {
    SettledRefines(s.turns, t, a);
  }

  /** An update concerns the turns only. */
  lemma UpdateKeeps(s: State, live: set<string>, tasks: map<nat, Task>, t: Turn)
    ensures Update(s.(live := live, tasks := tasks), t) == Update(s, t).(live := live, tasks := tasks)
  {
  }

  /** With the runner's answer, the turn that the call has captured has exactly its status, answer and error. */
  lemma FinishedStores(s: State, task: nat, a: Answer)
    requires Inv(s) && task in s.tasks && (s.tasks[task].Executing? || s.tasks[task].Resuming?) && EndedAs(a.status)
    ensures var t := CapturedBy(s.tasks[task]).value; var next := Step(s, Finished(task, a));
      Stores(s.turns, next.turns, t.sequence, a.status, a.answer, a.error) && |next.turns| == |s.turns|
      && next.tasks == s.tasks - {task}
  {
    var c := s.tasks[task];
    assert TaskFits(s.turns, c);
    UpdateStores(s, CapturedBy(c).value, a);
    UpdateKeeps(s, if c.Executing? then s.live - {c.turn.runId} else s.live, s.tasks - {task},
                Terminal(CapturedBy(c).value, a));
  }

  /** A cancelled turn has failed as interrupted, without an answer. */
  lemma CancelledStores(s: State, task: nat)
    requires Inv(s) && Enabled(s, Cancelled(task))
    ensures var t := CapturedBy(s.tasks[task]).value; var next := Step(s, Cancelled(task));
      Stores(s.turns, next.turns, t.sequence, Failed, None, Some("conversation execution interrupted"))
      && |next.turns| == |s.turns| && next.tasks == s.tasks - {task}
  {
    var t := s.tasks[task].turn;
    assert TaskFits(s.turns, s.tasks[task]);
    UpdateStores(s, t, INTERRUPTED);
    UpdateKeeps(s, s.live - {t.runId}, s.tasks - {task}, Terminal(t, INTERRUPTED));
  }

  /** A new turn is the last one, running, with the request's input and this mode. */
  predicate Begins(before: seq<Turn>, after: seq<Turn>, runId: string, mode: Mode, input: string) {
    && |after| == |before| + 1
    && after[|before|] == Turn(|before| + 1, runId, mode, input, Running, None, None)
  }

  predicate AllOver(turns: seq<Turn>) {
    forall i | 0 <= i < |turns| :: EndedAs(turns[i].status)
  }

  lemma LaunchBegins(s: State, task: nat, history: seq<Turn>, sequence: nat, runId: string, mode: Mode, input: string)
    requires Inv(s)
    ensures var next := Launch(s, task, history, sequence, runId, mode, input).turns;
      if AllOver(s.turns) && sequence == |s.turns| + 1
      then Begins(s.turns, next, runId, mode, input) && s.turns <= next
      else next == s.turns
  {
    NoneActive(s.turns);
    if AllOver(s.turns) && sequence == |s.turns| + 1 {
      LaunchedTurns(s.turns, Turn(sequence, runId, mode, input, Pending, None, None));
    }
  }

  /** The turns so far and, when all of them are over and no selector has to be asked, the new one in the requested
      mode, or Direct when the request names none */
  predicate GoesOnFrom(before: seq<Turn>, after: seq<Turn>, selector: bool, runId: string, request: Request) {
    if AllOver(before) && (request.mode.Some? || !selector) then
      && Begins(before, after, runId, if request.mode.Some? then request.mode.value else Direct, request.input)
      && before <= after
    else after == before
  }

  lemma CaptureBegins(s: State, task: nat, runId: string, request: Request)
    requires Inv(s)
    ensures GoesOnFrom(s.turns, Capture(s, task, runId, request).turns, s.selector, runId, request)
  {
    NoneActive(s.turns);
    if AllOver(s.turns) && (request.mode.Some? || !s.selector) {
      LaunchBegins(s, task, s.turns, |s.turns| + 1, runId, ModeOf(request), request.input);
    }
  }

  lemma SettleAndCaptureStores(s: State, task: nat, t: Turn, a: Answer, runId: string, request: Request)
    requires Inv(s) && IsTurn(s.turns, t) && Settles(a)
    ensures var settled := Update(s, Terminal(t, a));
      && Stores(s.turns, settled.turns, t.sequence, a.status, a.answer, a.error) && |settled.turns| == |s.turns|
      && GoesOnFrom(settled.turns, Capture(settled, task, runId, request).turns, s.selector, runId, request)
  {
    UpdateStores(s, t, a);
    SettleKeepsInv(s, t, a);
    CaptureBegins(Update(s, Terminal(t, a)), task, runId, request);
  }

  /** After the look-up, the captured turn has exactly the status, answer and error of a result that settles, and
      otherwise stays; then the call goes on from there. */
  lemma ReconciledStores(s: State, task: nat, result: Option<Answer>, runId: string) returns (settled: seq<Turn>)
    requires Inv(s) && Enabled(s, Reconciled(task, result, runId))
    ensures var t := CapturedBy(s.tasks[task]).value;
      if result.Some? && EndedAs(result.value.status)
      then Stores(s.turns, settled, t.sequence, result.value.status, result.value.answer, result.value.error)
           && |settled| == |s.turns|
      else settled == s.turns
    ensures GoesOnFrom(settled, Step(s, Reconciled(task, result, runId)).turns, s.selector, runId,
                       s.tasks[task].request)
  {
    assert TaskFits(s.turns, s.tasks[task]);
    var t, request := s.tasks[task].active, s.tasks[task].request;
    settled := s.turns;
    if result.Some? && Settles(result.value) {
      SettleAndCaptureStores(s, task, t, result.value, runId, request);
      settled := Update(s, Terminal(t, result.value)).turns;
    } else {
      CaptureBegins(s, task, runId, request);
    }
  }

  /** The last turn, when it is at work */
  function AtWork(turns: seq<Turn>): Option<Turn> {
    if turns != [] && !EndedAs(turns[|turns| - 1].status) then Some(turns[|turns| - 1]) else None
  }

  lemma AtWorkIs(turns: seq<Turn>)
    requires Numbered(turns) && OnlyLastActive(turns)
    ensures FirstActive(turns) == AtWork(turns)
  {
    NoneActive(turns);
  }

  /** A call in an existing conversation: an ephemeral turn that no call of this process runs has failed as lost,
      without an answer; a durable turn is looked up first, when it can be; otherwise the call goes on from the turns as
      they are. */
  lemma BeginStores(s: State, task: nat, request: Request, runId: string) returns (settled: seq<Turn>)
    requires Inv(s) && Enabled(s, Begin(task, request, false, runId))
    ensures var t := AtWork(s.turns); var next := Step(s, Begin(task, request, false, runId)).turns;
      if t.Some? && t.value.mode != PlanExecute && t.value.runId !in s.live then
        && Stores(s.turns, settled, t.value.sequence, Failed, None,
                  Some("ephemeral conversation turn could not be recovered"))
        && |settled| == |s.turns| && GoesOnFrom(settled, next, s.selector, runId, request)
      else if t.Some? && t.value.mode == PlanExecute && s.lookup then next == s.turns
      else GoesOnFrom(s.turns, next, s.selector, runId, request)
  {
    settled := s.turns;
    AtWorkIs(s.turns);
    var t := AtWork(s.turns);
    if t.Some? && Ephemeral(t.value.mode) && t.value.runId !in s.live {
      ActiveIsTurn(s.turns);
      SettleAndCaptureStores(s, task, t.value, LOST, runId, request);
      settled := Update(s, Terminal(t.value, LOST)).turns;
    } else if t.None? || Ephemeral(t.value.mode) || !s.lookup {
      CaptureBegins(s, task, runId, request);
    }
  }

  /** A call that creates the conversation begins its first turn, or nothing when there is one already. */
  lemma CreateBegins(s: State, task: nat, request: Request, runId: string)
    requires Inv(s) && Enabled(s, Begin(task, request, true, runId))
    ensures var next := Step(s, Begin(task, request, true, runId)).turns;
      if s.turns == [] then GoesOnFrom([], next, s.selector, runId, request) else next == s.turns
  {
    if request.mode.Some? || !s.selector {
      LaunchBegins(s, task, [], 1, runId, ModeOf(request), request.input);
    }
  }

  /** With the mode selected, the captured request begins the next turn, unless another has begun meanwhile. */
  lemma SelectedBegins(s: State, task: nat, mode: Mode)
    requires Inv(s) && Enabled(s, Selected(task, mode))
    ensures var c := s.tasks[task]; var next := Step(s, Selected(task, mode)).turns;
      if AllOver(s.turns) && |s.turns| == |c.history|
      then Begins(s.turns, next, c.runId, mode, c.request.input) && s.turns <= next
      else next == s.turns
  {
    var c := s.tasks[task];
    assert TaskFits(s.turns, c);
    LaunchBegins(s, task, c.history, c.sequence, c.runId, mode, c.request.input);
  }

  /** Nothing else touches the turns. */
  lemma OthersKeepTurns(s: State, e: Event)
    requires e.Abandoned? || e.BeginResume? || e.Restart? || !Enabled(s, e)
    ensures Step(s, e).turns == s.turns
  {
  }

  // ----- The service -----

  /** The service on its store, seen at one conversation: every method is one segment of a call between two awaits. */
  class ConversationService {
    const store: InMemoryConversationStore
    const convId: string
    const lookup: bool
    const selector: bool
    var live: set<string>
    var tasks: map<nat, Task>
    ghost var histories: seq<seq<Turn>>

    constructor (store: InMemoryConversationStore, convId: string, lookup: bool, selector: bool)
      ensures this.store == store && this.convId == convId && this.lookup == lookup && this.selector == selector
      ensures live == {} && tasks == map[] && histories == []
    {
      this.store, this.convId, this.lookup, this.selector := store, convId, lookup, selector;
      live, tasks, histories := {}, map[], [];
    }

    ghost function View(): State
      reads this, store
    {
      State(store.Turns(convId), histories, live, tasks, lookup, selector)
    }

    method LaunchTurn(task: nat, history: seq<Turn>, sequence: nat, runId: string, mode: Mode, input: string)
      modifies this, store
      ensures View() == Launch(old(View()), task, history, sequence, runId, mode, input)
      ensures forall id | id != convId :: store.Turns(id) == old(store.Turns(id))
    {
      var turn := Turn(sequence, runId, mode, input, Pending, None, None);
      var appended := store.Append(convId, turn);
      if !appended {
        tasks := tasks - {task};
        return;
      }
      turn := turn.(status := Running);
      var _ := store.Update(convId, turn);
      if Ephemeral(mode) {
        live := live + {runId};
      }
      tasks, histories := tasks[task := Executing(turn, history)], histories + [history];
    }

    /** Capture the history, refuse a busy conversation, and choose the mode or launch at once. */
    method CaptureHistory(task: nat, runId: string, request: Request)
      modifies this, store
      ensures View() == Capture(old(View()), task, runId, request)
      ensures forall id | id != convId :: store.Turns(id) == old(store.Turns(id))
    {
      var history := store.Turns(convId);
      if FirstActive(history).Some? {
        tasks := tasks - {task};
        return;
      }
      ChooseMode(task, history, |history| + 1, runId, request);
    }

    method ChooseMode(task: nat, history: seq<Turn>, sequence: nat, runId: string, request: Request)
      modifies this, store
      ensures View() == Choose(old(View()), task, history, sequence, runId, request)
      ensures forall id | id != convId :: store.Turns(id) == old(store.Turns(id))
    {
      if request.mode.None? && selector {
        tasks := tasks[task := Selecting(history, sequence, runId, request)];
        return;
      }
      LaunchTurn(task, history, sequence, runId, ModeOf(request), request.input);
    }

    method BeginCall(task: nat, request: Request, create: bool, runId: string)
      requires Enabled(View(), Begin(task, request, create, runId))
      modifies this, store
      ensures View() == Step(old(View()), Begin(task, request, create, runId))
      ensures forall id | id != convId :: store.Turns(id) == old(store.Turns(id))
    {
      if create {
        ChooseMode(task, [], 1, runId, request);
        return;
      }
      var active := FirstActive(store.Turns(convId));
      if active.Some? {
        if Ephemeral(active.value.mode) {
          if active.value.runId !in live {
            var _ := store.Update(convId, Terminal(active.value, LOST));
          }
        } else if lookup {
          tasks := tasks[task := Reconciling(active.value, request)];
          return;
        }
      }
      CaptureHistory(task, runId, request);
    }

    method AfterReconciling(task: nat, result: Option<Answer>, runId: string)
      requires Enabled(View(), Reconciled(task, result, runId))
      modifies this, store
      ensures View() == Step(old(View()), Reconciled(task, result, runId))
      ensures forall id | id != convId :: store.Turns(id) == old(store.Turns(id))
      ensures old(Inv(View())) && result.Some? && Settles(result.value) ==>
        Stores(old(store.Turns(convId)), store.Turns(convId), old(tasks[task].active.sequence),
               result.value.status, result.value.answer, result.value.error)
    {
      if Inv(View()) {
        ghost var settled := ReconciledStores(View(), task, result, runId);
      }
      var active, request := tasks[task].active, tasks[task].request;
      if result.Some? && Settles(result.value) {
        var _ := store.Update(convId, Terminal(active, result.value));
      }
      CaptureHistory(task, runId, request);
    }

    method AfterSelecting(task: nat, mode: Mode)
      requires Enabled(View(), Selected(task, mode))
      modifies this, store
      ensures View() == Step(old(View()), Selected(task, mode))
      ensures forall id | id != convId :: store.Turns(id) == old(store.Turns(id))
    {
      var call := tasks[task];
      LaunchTurn(task, call.history, call.sequence, call.runId, mode, call.request.input);
    }

    method AfterExecuting(task: nat, answer: Answer)
      requires Enabled(View(), Finished(task, answer))
      modifies this, store
      ensures View() == Step(old(View()), Finished(task, answer))
      ensures forall id | id != convId :: store.Turns(id) == old(store.Turns(id))
      ensures old(Inv(View())) ==>
        Stores(old(store.Turns(convId)), store.Turns(convId), old(CapturedBy(tasks[task]).value.sequence),
               answer.status, answer.answer, answer.error)
    {
      if Inv(View()) {
        FinishedStores(View(), task, answer);
      }
      var call := tasks[task];
      tasks := tasks - {task};
      if call.Executing? {
        live := live - {call.turn.runId};
        var _ := store.Update(convId, Terminal(call.turn, answer));
      } else {
        var _ := store.Update(convId, Terminal(call.resumed, answer));
      }
    }
  }
}

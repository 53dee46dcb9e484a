/** How long the histories that turns were started with stay true, and who settles a turn. */
module ConversationHistories {
  import opened Text
  import opened Conversation

  // ----- Accurate histories -----

  /** `history` is how the conversation begins, endings included. */
  predicate Begins(turns: seq<Turn>, history: seq<Turn>) {
    |history| <= |turns| && history == turns[..|history|]
  }

  predicate AllBegin(turns: seq<Turn>, histories: seq<seq<Turn>>) {
    forall k | 0 <= k < |histories| :: Begins(turns, histories[k])
  }

  /** What the calls that choose their mode have captured */
  predicate SelectionsBegin(turns: seq<Turn>, tasks: map<nat, Task>) {
    forall task | task in tasks && tasks[task].Selecting? :: Begins(turns, tasks[task].history)
  }

  /** Every history that a turn was started with, or that a call has captured, equals the turns before it. */
  predicate Accurate(s: State) {
    AllBegin(s.turns, s.histories) && SelectionsBegin(s.turns, s.tasks)
  }

  /** Some history holds the turn with this sequence: a later turn was started, or a call that chooses its mode has
      captured it. */
  predicate Captured(s: State, sequence: nat) {
    || sequence < |s.turns|
    || exists task | task in s.tasks && s.tasks[task].Selecting? :: sequence <= |s.tasks[task].history|
  }

  /** The turn and the ending that an event writes, other than the ending of a lost turn */
  function SettlingWrite(s: State, e: Event): Option<(Turn, Answer)>
    requires Enabled(s, e)
  {
    match e
    case Reconciled(task, result, _) =>
      if result.Some? && Settles(result.value) then Some((s.tasks[task].active, result.value)) else None
    case Finished(task, answer) =>
      Some((if s.tasks[task].Executing? then s.tasks[task].turn else s.tasks[task].resumed, answer))
    case Cancelled(task) => Some((s.tasks[task].turn, INTERRUPTED))
    case _ => None
  }

  /** The write repeats the ending that is stored, or no history holds the turn yet. */
  predicate HarmlessWrite(s: State, t: Turn, a: Answer) {
    1 <= t.sequence <= |s.turns| ==> s.turns[t.sequence - 1] == Terminal(t, a) || !Captured(s, t.sequence)
  }

  predicate Harmless(s: State, e: Event) {
    Enabled(s, e) && SettlingWrite(s, e).Some? ==>
      HarmlessWrite(s, SettlingWrite(s, e).value.0, SettlingWrite(s, e).value.1)
  }

  lemma BeginsAfter(turns: seq<Turn>, i: nat, t: Turn, history: seq<Turn>)
    requires i < |turns| && Begins(turns, history)
    ensures Begins(turns[i := t], history) <==> turns[i] == t || |history| <= i
  {
    if i < |history| && turns[i] != t {
      assert turns[i := t][..|history|][i] != history[i];
    }
  }

  lemma WriteKeepsBegin(turns: seq<Turn>, histories: seq<seq<Turn>>, i: nat, t: Turn)
    requires i < |turns| && HistoriesFit(turns, histories) && AllBegin(turns, histories)
    ensures AllBegin(turns[i := t], histories) <==> turns[i] == t || i == |turns| - 1
  {
    forall k | 0 <= k < |histories|
      ensures Begins(turns[i := t], histories[k]) <==> turns[i] == t || k <= i
    {
      BeginsAfter(turns, i, t, histories[k]);
    }
    if turns[i] != t && i < |turns| - 1 {
      assert !Begins(turns[i := t], histories[i + 1]);
    }
  }

  lemma WriteKeepsSelections(turns: seq<Turn>, tasks: map<nat, Task>, i: nat, t: Turn)
    requires i < |turns| && SelectionsBegin(turns, tasks)
    ensures SelectionsBegin(turns[i := t], tasks) <==>
      turns[i] == t || forall task | task in tasks && tasks[task].Selecting? :: |tasks[task].history| <= i
  {
    forall task | task in tasks && tasks[task].Selecting?
      ensures Begins(turns[i := t], tasks[task].history) <==> turns[i] == t || |tasks[task].history| <= i
    {
      BeginsAfter(turns, i, t, tasks[task].history);
    }
  }

  /** The exact condition: a settling write keeps all histories accurate if and only if it is harmless. */
  lemma WriteIsAccurateIff(s: State, t: Turn, a: Answer)
    requires Inv(s) && Accurate(s) && IsTurn(s.turns, t) && Settles(a)
    ensures Accurate(Update(s, Terminal(t, a))) <==> HarmlessWrite(s, t, a)
  {
    SettledRefines(s.turns, t, a);
    WriteKeepsBegin(s.turns, s.histories, t.sequence - 1, Terminal(t, a));
    WriteKeepsSelections(s.turns, s.tasks, t.sequence - 1, Terminal(t, a));
  }

  // ----- Launching and capturing keep what is accurate -----

  lemma BeginsGrows(turns: seq<Turn>, t: Turn, history: seq<Turn>)
    requires |history| <= |turns|
    ensures Begins(turns + [t], history) <==> Begins(turns, history)
  {
    assert (turns + [t])[..|history|] == turns[..|history|];
  }

  lemma AllBeginGrows(turns: seq<Turn>, t: Turn, histories: seq<seq<Turn>>)
    requires HistoriesFit(turns, histories)
    ensures AllBegin(turns + [t], histories + [turns]) <==> AllBegin(turns, histories)
  {
    var all := histories + [turns];
    forall k | 0 <= k < |histories|
      ensures Begins(turns + [t], all[k]) <==> Begins(turns, histories[k])
    {
      BeginsGrows(turns, t, histories[k]);
    }
    BeginsGrows(turns, t, turns);
    assert all[|histories|] == turns && Begins(turns, turns);
    if AllBegin(turns + [t], all) {
      forall k | 0 <= k < |histories|
        ensures Begins(turns, histories[k])
      {
        assert Begins(turns + [t], all[k]);
      }
    }
  }

  lemma SelectionsGrow(turns: seq<Turn>, t: Turn, tasks: map<nat, Task>)
    requires TasksFit(turns, tasks)
    ensures SelectionsBegin(turns + [t], tasks) <==> SelectionsBegin(turns, tasks)
  {
    forall task | task in tasks && tasks[task].Selecting?
      ensures Begins(turns + [t], tasks[task].history) <==> Begins(turns, tasks[task].history)
    {
      assert TaskFits(turns, tasks[task]);
      BeginsGrows(turns, t, tasks[task].history);
    }
  }

  /** Call `task` has not captured a history while choosing its mode. */
  predicate SelectsNothing(tasks: map<nat, Task>, task: nat) {
    task in tasks ==> !tasks[task].Selecting?
  }

  /** Replacing or dropping one call */
  lemma SelectionsOfOthers(turns: seq<Turn>, tasks: map<nat, Task>, task: nat, c: Task)
    ensures SelectionsBegin(turns, tasks) ==> SelectionsBegin(turns, Without(tasks, task))
    ensures SelectsNothing(tasks, task) && SelectionsBegin(turns, Without(tasks, task)) ==>
      SelectionsBegin(turns, tasks)
    ensures SelectionsBegin(turns, tasks[task := c]) <==>
      SelectionsBegin(turns, Without(tasks, task)) && (c.Selecting? ==> Begins(turns, c.history))
  {
    var put, rest := tasks[task := c], Without(tasks, task);
    assert forall k | k in rest :: k in tasks && k in put && rest[k] == tasks[k] == put[k];
    assert put[task] == c;
    assert forall k | k in tasks && k != task :: k in rest;
    assert forall k | k in put && k != task :: k in rest;
  }

  lemma LaunchShape(s: State, task: nat, history: seq<Turn>, sequence: nat, runId: string, mode: Mode, input: string)
    requires Inv(s)
    ensures var u := Launch(s, task, history, sequence, runId, mode, input);
      var t := Turn(sequence, runId, mode, input, Running, None, None);
      if FirstActive(s.turns).Some? || sequence != |s.turns| + 1 then u == s.(tasks := Without(s.tasks, task))
      else u == s.(turns := s.turns + [t], histories := s.histories + [history],
                   live := if Ephemeral(mode) then s.live + {runId} else s.live,
                   tasks := s.tasks[task := Executing(t, history)])
  {
    var t := Turn(sequence, runId, mode, input, Pending, None, None);
    if Appended(s.turns, t).Some? {
      LaunchedTurns(s.turns, t);
    }
  }

  lemma LaunchIsAccurate(s: State, task: nat, history: seq<Turn>, sequence: nat, runId: string, mode: Mode,
                         input: string)
    requires Inv(s) && sequence == |history| + 1 && Begins(s.turns, history)
    ensures Accurate(s) ==> Accurate(Launch(s, task, history, sequence, runId, mode, input))
    ensures SelectsNothing(s.tasks, task) && Accurate(Launch(s, task, history, sequence, runId, mode, input)) ==>
      Accurate(s)
  {
    LaunchShape(s, task, history, sequence, runId, mode, input);
    var t := Turn(sequence, runId, mode, input, Running, None, None);
    SelectionsOfOthers(s.turns, s.tasks, task, Executing(t, history));
    if FirstActive(s.turns).None? && sequence == |s.turns| + 1 {
      assert history == s.turns;
      AllBeginGrows(s.turns, t, s.histories);
      WithoutFits(s.turns, s.tasks, task);
      SelectionsGrow(s.turns, t, Without(s.tasks, task));
      SelectionsOfOthers(s.turns + [t], s.tasks, task, Executing(t, history));
    }
  }

  lemma WithoutFits(turns: seq<Turn>, tasks: map<nat, Task>, task: nat)
    requires TasksFit(turns, tasks)
    ensures TasksFit(turns, Without(tasks, task))
  {
    forall k | k in Without(tasks, task)
      ensures TaskFits(turns, Without(tasks, task)[k])
    {
      assert TaskFits(turns, tasks[k]);
    }
  }

  lemma ChooseIsAccurate(s: State, task: nat, history: seq<Turn>, sequence: nat, runId: string, request: Request)
    requires Inv(s) && sequence == |history| + 1 && Begins(s.turns, history) && SelectsNothing(s.tasks, task)
    ensures Accurate(Choose(s, task, history, sequence, runId, request)) <==> Accurate(s)
  {
    if request.mode.None? && s.selector {
      SelectionsOfOthers(s.turns, s.tasks, task, Selecting(history, sequence, runId, request));
    } else {
      LaunchIsAccurate(s, task, history, sequence, runId, ModeOf(request), request.input);
    }
  }

  lemma CaptureIsAccurate(s: State, task: nat, runId: string, request: Request)
    requires Inv(s) && SelectsNothing(s.tasks, task)
    ensures Accurate(Capture(s, task, runId, request)) <==> Accurate(s)
  {
    if FirstActive(s.turns).Some? {
      SelectionsOfOthers(s.turns, s.tasks, task, Resuming(s.turns[0]));
    } else {
      ChooseIsAccurate(s, task, s.turns, |s.turns| + 1, runId, request);
    }
  }

  /** A lost turn is the last, and no history holds it. */
  lemma ActiveIsNotCaptured(s: State)
    requires Inv(s) && Accurate(s) && FirstActive(s.turns).Some?
    ensures FirstActive(s.turns).value.sequence == |s.turns| && !Captured(s, |s.turns|)
  {
    NoneActive(s.turns);
    var i :| 0 <= i < |s.turns| && s.turns[i] == FirstActive(s.turns).value;
    forall task | task in s.tasks && s.tasks[task].Selecting?
      ensures |s.tasks[task].history| < |s.turns|
    {
      var history := s.tasks[task].history;
      assert TaskFits(s.turns, s.tasks[task]) && Begins(s.turns, history);
    }
  }

  lemma BeginIsAccurate(s: State, task: nat, request: Request, create: bool, runId: string)
    requires Inv(s) && Accurate(s) && task !in s.tasks
    ensures Accurate(BeginRun(s, task, request, create, runId))
  {
    if create {
      ChooseIsAccurate(s, task, [], 1, runId, request);
    } else {
      var active := FirstActive(s.turns);
      if active.None? {
        CaptureIsAccurate(s, task, runId, request);
      } else {
        ActiveIsTurn(s.turns);
        if Ephemeral(active.value.mode) {
          if active.value.runId !in s.live {
            ActiveIsNotCaptured(s);
            WriteIsAccurateIff(s, active.value, LOST);
            SettleKeepsInv(s, active.value, LOST);
          }
          CaptureIsAccurate(if active.value.runId in s.live then s else Update(s, Terminal(active.value, LOST)),
                            task, runId, request);
        } else if !s.lookup {
          CaptureIsAccurate(s, task, runId, request);
        } else {
          SelectionsOfOthers(s.turns, s.tasks, task, Reconciling(active.value, request));
        }
      }
    }
  }

  /** Dropping a call that captured nothing changes neither what is accurate nor what is captured. */
  lemma DropIsHarmless(s: State, task: nat, live: set<string>, t: Turn, a: Answer)
    requires Inv(s) && SelectsNothing(s.tasks, task)
    ensures var d := s.(live := live, tasks := Without(s.tasks, task));
      Inv(d) && (Accurate(d) <==> Accurate(s)) && (HarmlessWrite(d, t, a) <==> HarmlessWrite(s, t, a))
  {
    var d := s.(live := live, tasks := Without(s.tasks, task));
    SelectionsOfOthers(s.turns, s.tasks, task, Resuming(t));
    WithoutFits(s.turns, s.tasks, task);
    assert forall k | k in d.tasks :: k in s.tasks && d.tasks[k] == s.tasks[k];
    assert forall k | k in s.tasks && s.tasks[k].Selecting? :: k in d.tasks;
  }

  lemma ReconciledIsAccurateIff(s: State, task: nat, result: Option<Answer>, runId: string)
    requires Inv(s) && Accurate(s) && Enabled(s, Reconciled(task, result, runId))
    ensures Accurate(Step(s, Reconciled(task, result, runId))) <==> Harmless(s, Reconciled(task, result, runId))
  {
    var active, request := s.tasks[task].active, s.tasks[task].request;
    assert TaskFits(s.turns, s.tasks[task]);
    if result.Some? && Settles(result.value) {
      WriteIsAccurateIff(s, active, result.value);
      SettleKeepsInv(s, active, result.value);
      CaptureIsAccurate(Update(s, Terminal(active, result.value)), task, runId, request);
    } else {
      CaptureIsAccurate(s, task, runId, request);
    }
  }

  lemma FinishedIsAccurateIff(s: State, task: nat, live: set<string>, t: Turn, a: Answer)
    requires Inv(s) && Accurate(s) && SelectsNothing(s.tasks, task) && IsTurn(s.turns, t) && Settles(a)
    ensures Accurate(Update(s.(live := live, tasks := Without(s.tasks, task)), Terminal(t, a))) <==>
      HarmlessWrite(s, t, a)
  {
    DropIsHarmless(s, task, live, t, a);
    WriteIsAccurateIff(s.(live := live, tasks := Without(s.tasks, task)), t, a);
  }

  lemma AnswerIsAccurateIff(s: State, task: nat, answer: Answer)
    requires Inv(s) && Accurate(s) && Enabled(s, Finished(task, answer))
    ensures Accurate(Step(s, Finished(task, answer))) <==> Harmless(s, Finished(task, answer))
  {
    var c := s.tasks[task];
    assert TaskFits(s.turns, c);
    if c.Executing? {
      FinishedIsAccurateIff(s, task, s.live - {c.turn.runId}, c.turn, answer);
    } else {
      FinishedIsAccurateIff(s, task, s.live, c.resumed, answer);
    }
  }

  /** Whatever happens next: the histories stay accurate exactly when the ending it writes, if any, is harmless. */
  lemma StepIsAccurateIff(s: State, e: Event)
    requires Inv(s) && Accurate(s)
    ensures Accurate(Step(s, e)) <==> Harmless(s, e)
  {
    if Enabled(s, e) {
      match e
      case Begin(task, request, create, runId) => BeginIsAccurate(s, task, request, create, runId);
      case Reconciled(task, result, runId) => ReconciledIsAccurateIff(s, task, result, runId);
      case Selected(task, mode) =>
        var c := s.tasks[task];
        assert TaskFits(s.turns, c);
        LaunchIsAccurate(s, task, c.history, c.sequence, c.runId, mode, c.request.input);
      case Finished(task, answer) => AnswerIsAccurateIff(s, task, answer);
      case Cancelled(task) =>
        var c := s.tasks[task];
        assert TaskFits(s.turns, c);
        FinishedIsAccurateIff(s, task, s.live - {c.turn.runId}, c.turn, INTERRUPTED);
      case Abandoned(task) => SelectionsOfOthers(s.turns, s.tasks, task, s.tasks[task]);
      case BeginResume(task) =>
        if FirstActive(s.turns).Some? {
          SelectionsOfOthers(s.turns, s.tasks, task, Resuming(FirstActive(s.turns).value));
        }
      case Restart =>
    }
  }

  /** The histories are accurate after every event of a run. */
  ghost predicate AlwaysAccurate(s: State, events: seq<Event>) {
    forall n | 0 <= n <= |events| :: Accurate(Run(s, events[..n]))
  }

  ghost predicate AlwaysHarmless(s: State, events: seq<Event>) {
    forall n | 0 <= n < |events| :: Harmless(Run(s, events[..n]), events[n])
  }

  lemma RunStep(s: State, events: seq<Event>, n: nat)
    requires n < |events|
    ensures Run(s, events[..n + 1]) == Step(Run(s, events[..n]), events[n])
  {
    RunOn(s, events[..n], events[n]);
    assert events[..n] + [events[n]] == events[..n + 1];
  }

  lemma {:induction false} AccurateUpTo(s: State, events: seq<Event>, n: nat)
    requires Inv(s) && Accurate(s) && n <= |events| && AlwaysHarmless(s, events)
    ensures Accurate(Run(s, events[..n]))
  {
    if n > 0 {
      AccurateUpTo(s, events, n - 1);
      RunKeepsInv(s, events[..n - 1]);
      RunStep(s, events, n - 1);
      StepIsAccurateIff(Run(s, events[..n - 1]), events[n - 1]);
    }
  }

  /** Over every run: the histories are accurate all along if and only if every ending that is written is harmless
      where it is written. */
  lemma HistoriesStayAccurateIff(lookup: bool, selector: bool, events: seq<Event>)
    ensures var s := Empty(lookup, selector); AlwaysAccurate(s, events) <==> AlwaysHarmless(s, events)
  {
    var s := Empty(lookup, selector);
    if AlwaysHarmless(s, events) {
      forall n | 0 <= n <= |events|
        ensures Accurate(Run(s, events[..n]))
      {
        AccurateUpTo(s, events, n);
      }
    }
    if AlwaysAccurate(s, events) {
      forall n | 0 <= n < |events|
        ensures Harmless(Run(s, events[..n]), events[n])
      {
        RunKeepsInv(s, events[..n]);
        RunStep(s, events, n);
        StepIsAccurateIff(Run(s, events[..n]), events[n]);
        assert Accurate(Run(s, events[..n + 1]));
      }
    }
  }

  // ----- Who settles an ephemeral turn -----

  /** No turn and no call that will launch one has this run identifier. */
  predicate FreshId(s: State, runId: string) {
    && (forall i | 0 <= i < |s.turns| :: s.turns[i].runId != runId)
    && forall task | task in s.tasks && s.tasks[task].Selecting? :: s.tasks[task].runId != runId
  }

  /** Run identifiers that an event brings along are new. */
  predicate BringsFreshId(s: State, e: Event) {
    match e
    case Begin(_, _, _, runId) => FreshId(s, runId)
    case Reconciled(_, _, runId) => FreshId(s, runId)
    case _ => true
  }

  ghost predicate FreshRun(s: State, events: seq<Event>) {
    forall n | 0 <= n < |events| :: BringsFreshId(Run(s, events[..n]), events[n])
  }

  predicate DistinctRuns(turns: seq<Turn>) {
    forall i, j | 0 <= i < j < |turns| :: turns[i].runId != turns[j].runId
  }

  /** Calls that choose their mode will launch runs that differ from all others. */
  predicate DistinctSelections(turns: seq<Turn>, tasks: map<nat, Task>) {
    forall k | k in tasks && tasks[k].Selecting? ::
      && (forall i | 0 <= i < |turns| :: turns[i].runId != tasks[k].runId)
      && forall l | l in tasks && tasks[l].Selecting? && l != k :: tasks[l].runId != tasks[k].runId
  }

  /** No two calls execute the same turn. */
  predicate DistinctExecutions(tasks: map<nat, Task>) {
    forall k, l | k in tasks && l in tasks && k != l && tasks[k].Executing? && tasks[l].Executing? ::
      tasks[k].turn.sequence != tasks[l].turn.sequence
  }

  /** A call that executes an ephemeral turn: the conversation holds the turn as running, and its run as at work. */
  predicate Owns(turns: seq<Turn>, live: set<string>, c: Task) {
    c.Executing? && Ephemeral(c.turn.mode) ==>
      && 1 <= c.turn.sequence <= |turns| && turns[c.turn.sequence - 1] == c.turn
      && c.turn.status == Running && c.turn.runId in live
  }

  /** Only durable turns are looked up or resumed. */
  predicate Durable(c: Task) {
    && (c.Reconciling? ==> !Ephemeral(c.active.mode))
    && (c.Resuming? ==> !Ephemeral(c.resumed.mode))
  }

  predicate Owned(s: State) {
    && DistinctRuns(s.turns) && DistinctSelections(s.turns, s.tasks) && DistinctExecutions(s.tasks)
    && forall task | task in s.tasks :: Owns(s.turns, s.live, s.tasks[task]) && Durable(s.tasks[task])
  }

  /** A write that leaves all ephemeral turns at work alone */
  predicate Spares(s: State, sequence: nat) {
    forall task | task in s.tasks && s.tasks[task].Executing? && Ephemeral(s.tasks[task].turn.mode) ::
      s.tasks[task].turn.sequence != sequence
  }

  lemma WriteKeepsOwned(s: State, t: Turn, a: Answer)
    requires Inv(s) && Owned(s) && IsTurn(s.turns, t) && Settles(a) && Spares(s, t.sequence)
    ensures Owned(Update(s, Terminal(t, a)))
  {
    SettledRefines(s.turns, t, a);
    var u := Update(s, Terminal(t, a));
    assert forall i | 0 <= i < |s.turns| :: u.turns[i].runId == s.turns[i].runId;
    forall task | task in s.tasks
      ensures Owns(u.turns, u.live, u.tasks[task]) && Durable(u.tasks[task])
    {
      assert Owns(s.turns, s.live, s.tasks[task]);
    }
  }

  /** A turn of a durable run is no ephemeral turn at work. */
  lemma DurableIsSpared(s: State, t: Turn)
    requires Inv(s) && Owned(s) && IsTurn(s.turns, t) && !Ephemeral(t.mode)
    ensures Spares(s, t.sequence)
  {
    forall task | task in s.tasks && s.tasks[task].Executing? && Ephemeral(s.tasks[task].turn.mode)
      ensures s.tasks[task].turn.sequence != t.sequence
    {
      assert Owns(s.turns, s.live, s.tasks[task]);
    }
  }

  /** A turn whose run is not at work in this process is no ephemeral turn at work. */
  lemma LostIsSpared(s: State, t: Turn)
    requires Inv(s) && Owned(s) && IsTurn(s.turns, t) && t.runId !in s.live
    ensures Spares(s, t.sequence)
  {
    forall task | task in s.tasks && s.tasks[task].Executing? && Ephemeral(s.tasks[task].turn.mode)
      ensures s.tasks[task].turn.sequence != t.sequence
    {
      assert Owns(s.turns, s.live, s.tasks[task]);
    }
  }

  lemma DropKeepsOwned(s: State, task: nat)
    requires Owned(s)
    ensures Owned(s.(tasks := Without(s.tasks, task)))
  {
    var rest := Without(s.tasks, task);
    assert forall k | k in rest :: k in s.tasks && rest[k] == s.tasks[k];
  }

  /** A call that executes nothing and selects nothing takes the place of another. */
  lemma PutKeepsOwned(s: State, task: nat, c: Task)
    requires Owned(s) && !c.Executing? && Durable(c)
    requires c.Selecting? ==> FreshId(s, c.runId)
    ensures Owned(s.(tasks := s.tasks[task := c]))
  {
    var put := s.tasks[task := c];
    assert forall k | k in put && k != task :: k in s.tasks && put[k] == s.tasks[k];
    forall k | k in put && put[k].Selecting?
      ensures forall i | 0 <= i < |s.turns| :: s.turns[i].runId != put[k].runId
      ensures forall l | l in put && put[l].Selecting? && l != k :: put[l].runId != put[k].runId
    {
    }
  }

  /** The new run is not that of a turn or of another call. */
  predicate NewFor(s: State, task: nat, runId: string) {
    && (forall i | 0 <= i < |s.turns| :: s.turns[i].runId != runId)
    && forall k | k in s.tasks && s.tasks[k].Selecting? && k != task :: s.tasks[k].runId != runId
  }

  lemma LaunchKeepsRuns(turns: seq<Turn>, tasks: map<nat, Task>, task: nat, t: Turn, c: Task)
    requires DistinctRuns(turns) && DistinctSelections(turns, tasks) && !c.Selecting?
    requires forall i | 0 <= i < |turns| :: turns[i].runId != t.runId
    requires forall k | k in tasks && tasks[k].Selecting? && k != task :: tasks[k].runId != t.runId
    ensures DistinctRuns(turns + [t]) && DistinctSelections(turns + [t], tasks[task := c])
  {
    var put := tasks[task := c];
    assert forall k | k in put && k != task :: k in tasks && put[k] == tasks[k];
    forall k | k in put && put[k].Selecting?
      ensures forall i | 0 <= i < |turns + [t]| :: (turns + [t])[i].runId != put[k].runId
      ensures forall l | l in put && put[l].Selecting? && l != k :: put[l].runId != put[k].runId
    {
      assert k != task && k in tasks;
    }
  }

  lemma LaunchKeepsExecutions(s: State, task: nat, t: Turn, history: seq<Turn>, live: set<string>)
    requires Inv(s) && Owned(s) && t.sequence == |s.turns| + 1 && t.status == Running && s.live <= live
    requires Ephemeral(t.mode) ==> t.runId in live
    ensures var put := s.tasks[task := Executing(t, history)];
      && DistinctExecutions(put)
      && forall k | k in put :: Owns(s.turns + [t], live, put[k]) && Durable(put[k])
  {
    var put := s.tasks[task := Executing(t, history)];
    assert forall k | k in put && k != task :: k in s.tasks && put[k] == s.tasks[k];
    forall k | k in s.tasks && s.tasks[k].Executing?
      ensures s.tasks[k].turn.sequence <= |s.turns|
    {
      assert TaskFits(s.turns, s.tasks[k]);
    }
    forall k | k in put
      ensures Owns(s.turns + [t], live, put[k]) && Durable(put[k])
    {
      if k != task {
        assert Owns(s.turns, s.live, s.tasks[k]);
      }
    }
  }

  lemma LaunchKeepsOwned(s: State, task: nat, history: seq<Turn>, sequence: nat, runId: string, mode: Mode,
                         input: string)
    requires Inv(s) && Owned(s) && NewFor(s, task, runId)
    ensures Owned(Launch(s, task, history, sequence, runId, mode, input))
  {
    LaunchShape(s, task, history, sequence, runId, mode, input);
    DropKeepsOwned(s, task);
    if FirstActive(s.turns).None? && sequence == |s.turns| + 1 {
      var t := Turn(sequence, runId, mode, input, Running, None, None);
      LaunchKeepsRuns(s.turns, s.tasks, task, t, Executing(t, history));
      LaunchKeepsExecutions(s, task, t, history, if Ephemeral(mode) then s.live + {runId} else s.live);
    }
  }

  lemma ChooseKeepsOwned(s: State, task: nat, history: seq<Turn>, sequence: nat, runId: string, request: Request)
    requires Inv(s) && Owned(s) && FreshId(s, runId)
    ensures Owned(Choose(s, task, history, sequence, runId, request))
  {
    if request.mode.None? && s.selector {
      PutKeepsOwned(s, task, Selecting(history, sequence, runId, request));
    } else {
      LaunchKeepsOwned(s, task, history, sequence, runId, ModeOf(request), request.input);
    }
  }

  lemma CaptureKeepsOwned(s: State, task: nat, runId: string, request: Request)
    requires Inv(s) && Owned(s) && FreshId(s, runId)
    ensures Owned(Capture(s, task, runId, request))
  {
    DropKeepsOwned(s, task);
    if FirstActive(s.turns).None? {
      ChooseKeepsOwned(s, task, s.turns, |s.turns| + 1, runId, request);
    }
  }

  lemma WriteKeepsFresh(s: State, t: Turn, a: Answer, runId: string)
    requires Inv(s) && IsTurn(s.turns, t) && Settles(a) && FreshId(s, runId)
    ensures FreshId(Update(s, Terminal(t, a)), runId)
  {
    SettledRefines(s.turns, t, a);
  }

  /** Settle a turn that is not at work, then capture. */
  lemma SettleAndCapture(s: State, t: Turn, a: Answer, task: nat, runId: string, request: Request)
    requires Inv(s) && Owned(s) && IsTurn(s.turns, t) && Settles(a) && Spares(s, t.sequence) && FreshId(s, runId)
    ensures Owned(Capture(Update(s, Terminal(t, a)), task, runId, request))
  {
    WriteKeepsOwned(s, t, a);
    WriteKeepsFresh(s, t, a, runId);
    SettleKeepsInv(s, t, a);
    CaptureKeepsOwned(Update(s, Terminal(t, a)), task, runId, request);
  }

  lemma BeginKeepsOwned(s: State, task: nat, request: Request, create: bool, runId: string)
    requires Inv(s) && Owned(s) && FreshId(s, runId)
    ensures Owned(BeginRun(s, task, request, create, runId))
  {
    if create {
      ChooseKeepsOwned(s, task, [], 1, runId, request);
    } else {
      var active := FirstActive(s.turns);
      if active.None? {
        CaptureKeepsOwned(s, task, runId, request);
      } else {
        ActiveIsTurn(s.turns);
        if Ephemeral(active.value.mode) {
          if active.value.runId in s.live {
            CaptureKeepsOwned(s, task, runId, request);
          } else {
            LostIsSpared(s, active.value);
            SettleAndCapture(s, active.value, LOST, task, runId, request);
          }
        } else if !s.lookup {
          CaptureKeepsOwned(s, task, runId, request);
        } else {
          PutKeepsOwned(s, task, Reconciling(active.value, request));
        }
      }
    }
  }

  lemma ReconcileKeepsOwned(s: State, task: nat, result: Option<Answer>, runId: string)
    requires Inv(s) && Owned(s) && Enabled(s, Reconciled(task, result, runId)) && FreshId(s, runId)
    ensures Owned(Step(s, Reconciled(task, result, runId)))
  {
    var active, request := s.tasks[task].active, s.tasks[task].request;
    assert TaskFits(s.turns, s.tasks[task]) && Durable(s.tasks[task]);
    if result.Some? && Settles(result.value) {
      DurableIsSpared(s, active);
      SettleAndCapture(s, active, result.value, task, runId, request);
    } else {
      CaptureKeepsOwned(s, task, runId, request);
    }
  }

  /** When a call stops executing its turn, the others still own theirs. */
  lemma ReleaseKeepsOwned(s: State, task: nat)
    requires Inv(s) && Owned(s) && task in s.tasks && s.tasks[task].Executing?
    ensures var d := s.(live := s.live - {s.tasks[task].turn.runId}, tasks := Without(s.tasks, task));
      Owned(d) && Spares(d, s.tasks[task].turn.sequence) && Inv(d)
  {
    var t := s.tasks[task].turn;
    var d := s.(live := s.live - {t.runId}, tasks := Without(s.tasks, task));
    DropKeepsOwned(s, task);
    WithoutFits(s.turns, s.tasks, task);
    assert TaskFits(s.turns, s.tasks[task]);
    forall k | k in d.tasks
      ensures Owns(d.turns, d.live, d.tasks[k]) && Durable(d.tasks[k])
    {
      assert d.tasks[k] == s.tasks[k] && k != task;
      assert TaskFits(s.turns, s.tasks[k]) && Owns(s.turns, s.live, s.tasks[k]) && Durable(s.tasks[k]);
    }
  }

  lemma FinishKeepsOwned(s: State, task: nat, a: Answer)
    requires Inv(s) && Owned(s) && task in s.tasks && s.tasks[task].Executing? && Settles(a)
    ensures Owned(FinishRun(s, task, s.tasks[task].turn, a))
  {
    var t := s.tasks[task].turn;
    assert TaskFits(s.turns, s.tasks[task]);
    ReleaseKeepsOwned(s, task);
    WriteKeepsOwned(s.(live := s.live - {t.runId}, tasks := Without(s.tasks, task)), t, a);
  }

  lemma AnswerKeepsOwned(s: State, task: nat, answer: Answer)
    requires Inv(s) && Owned(s) && Enabled(s, Finished(task, answer))
    ensures Owned(Step(s, Finished(task, answer)))
  {
    var c := s.tasks[task];
    if c.Executing? {
      FinishKeepsOwned(s, task, answer);
    } else {
      assert TaskFits(s.turns, c) && Durable(c);
      DropKeepsOwned(s, task);
      DropIsHarmless(s, task, s.live, c.resumed, answer);
      var d := s.(tasks := Without(s.tasks, task));
      DurableIsSpared(d, c.resumed);
      WriteKeepsOwned(d, c.resumed, answer);
    }
  }

  lemma StepKeepsOwned(s: State, e: Event)
    requires Inv(s) && Owned(s) && BringsFreshId(s, e)
    ensures Owned(Step(s, e))
  {
    if Enabled(s, e) {
      match e
      case Begin(task, request, create, runId) => BeginKeepsOwned(s, task, request, create, runId);
      case Reconciled(task, result, runId) => ReconcileKeepsOwned(s, task, result, runId);
      case Selected(task, mode) =>
        var c := s.tasks[task];
        LaunchKeepsOwned(s, task, c.history, c.sequence, c.runId, mode, c.request.input);
      case Finished(task, answer) => AnswerKeepsOwned(s, task, answer);
      case Cancelled(task) => FinishKeepsOwned(s, task, INTERRUPTED);
      case Abandoned(task) => DropKeepsOwned(s, task);
      case BeginResume(task) =>
        if FirstActive(s.turns).Some? && !Ephemeral(FirstActive(s.turns).value.mode) {
          PutKeepsOwned(s, task, Resuming(FirstActive(s.turns).value));
        }
      case Restart =>
    }
  }

  lemma {:induction false} RunKeepsOwned(s: State, events: seq<Event>, n: nat)
    requires Inv(s) && Owned(s) && FreshRun(s, events) && n <= |events|
    ensures Owned(Run(s, events[..n]))
  {
    if n > 0 {
      RunKeepsOwned(s, events, n - 1);
      RunKeepsInv(s, events[..n - 1]);
      RunStep(s, events, n - 1);
      StepKeepsOwned(Run(s, events[..n - 1]), events[n - 1]);
    }
  }

  /** With fresh run identifiers, however calls interleave: while a call executes an ephemeral turn, that turn is the
      last of the conversation and stands there as running; nobody else settles it. */
  lemma EphemeralTurnsAreOwned(lookup: bool, selector: bool, events: seq<Event>, n: nat, task: nat)
    requires FreshRun(Empty(lookup, selector), events) && n <= |events|
    requires var s := Run(Empty(lookup, selector), events[..n]);
      task in s.tasks && s.tasks[task].Executing? && Ephemeral(s.tasks[task].turn.mode)
    ensures var s := Run(Empty(lookup, selector), events[..n]); var t := s.tasks[task].turn;
      && 1 <= t.sequence == |s.turns| && s.turns[|s.turns| - 1] == t && t.status == Running && t.runId in s.live
  {
    var s := Run(Empty(lookup, selector), events[..n]);
    RunKeepsOwned(Empty(lookup, selector), events, n);
    RunKeepsInv(Empty(lookup, selector), events[..n]);
    OwnedIsLast(s, task);
  }

  lemma OwnedIsLast(s: State, task: nat)
    requires Inv(s) && Owned(s) && task in s.tasks && s.tasks[task].Executing? && Ephemeral(s.tasks[task].turn.mode)
    ensures var t := s.tasks[task].turn;
      && 1 <= t.sequence == |s.turns| && s.turns[|s.turns| - 1] == t && t.status == Running && t.runId in s.live
  {
    assert Owns(s.turns, s.live, s.tasks[task]);
  }

  // ----- Turns that no call will settle -----

  /** The last turn is ephemeral and running, and no call executes it: its runner could not be made, was refused, or
      belonged to another process. */
  predicate Orphaned(s: State) {
    && s.turns != [] && Active(s.turns[|s.turns| - 1]) && Ephemeral(s.turns[|s.turns| - 1].mode)
    && forall task | task in s.tasks && s.tasks[task].Executing? :: s.tasks[task].turn.sequence != |s.turns|
  }

  function LastTurn(s: State): Turn
    requires s.turns != []
  {
    s.turns[|s.turns| - 1]
  }

  /** The orphaned turn is held as at work. */
  predicate Stuck(s: State, t: Turn) {
    Orphaned(s) && LastTurn(s) == t && t.runId in s.live
  }

  lemma {:induction false} FirstActiveIsLast(turns: seq<Turn>)
    requires turns != [] && OnlyLastActive(turns) && Active(turns[|turns| - 1])
    ensures FirstActive(turns) == Some(turns[|turns| - 1])
  {
    FirstActiveAfter(turns, |turns| - 1);
  }

  lemma DropKeepsStuck(s: State, task: nat, t: Turn)
    requires Stuck(s, t)
    ensures Stuck(s.(tasks := Without(s.tasks, task)), t)
  {
    var rest := Without(s.tasks, task);
    assert forall k | k in rest :: k in s.tasks && rest[k] == s.tasks[k];
  }

  lemma PutKeepsStuck(s: State, task: nat, c: Task, t: Turn)
    requires Stuck(s, t) && !c.Executing?
    ensures Stuck(s.(tasks := s.tasks[task := c]), t)
  {
    var put := s.tasks[task := c];
    assert forall k | k in put && k != task :: k in s.tasks && put[k] == s.tasks[k];
  }

  /** Settling an earlier turn, whatever its call leaves behind */
  lemma WriteKeepsStuck(s: State, t: Turn, written: Turn, a: Answer)
    requires Inv(s) && Stuck(s, t) && IsTurn(s.turns, written) && Settles(a) && written.sequence != |s.turns|
    ensures Stuck(Update(s, Terminal(written, a)), t)
  {
    SettledRefines(s.turns, written, a);
  }

  lemma LaunchKeepsStuck(s: State, t: Turn, task: nat, history: seq<Turn>, sequence: nat, runId: string, mode: Mode,
                         input: string)
    requires Inv(s) && Stuck(s, t)
    ensures Stuck(Launch(s, task, history, sequence, runId, mode, input), t)
  {
    FirstActiveIsLast(s.turns);
    LaunchShape(s, task, history, sequence, runId, mode, input);
    DropKeepsStuck(s, task, t);
  }

  lemma CaptureKeepsStuck(s: State, t: Turn, task: nat, runId: string, request: Request)
    requires Inv(s) && Stuck(s, t)
    ensures Stuck(Capture(s, task, runId, request), t)
  {
    FirstActiveIsLast(s.turns);
    DropKeepsStuck(s, task, t);
  }

  lemma BeginKeepsStuck(s: State, t: Turn, task: nat, request: Request, create: bool, runId: string)
    requires Inv(s) && Stuck(s, t)
    ensures Stuck(BeginRun(s, task, request, create, runId), t)
  {
    FirstActiveIsLast(s.turns);
    if create {
      if request.mode.None? && s.selector {
        PutKeepsStuck(s, task, Selecting([], 1, runId, request), t);
      } else {
        LaunchKeepsStuck(s, t, task, [], 1, runId, ModeOf(request), request.input);
      }
    } else {
      CaptureKeepsStuck(s, t, task, runId, request);
    }
  }

  /** A durable turn is not the orphaned one. */
  lemma DurableIsEarlier(s: State, t: Turn, d: Turn)
    requires Stuck(s, t) && IsTurn(s.turns, d) && !Ephemeral(d.mode)
    ensures d.sequence != |s.turns|
  {
  }

  lemma ReconcileKeepsStuck(s: State, t: Turn, task: nat, result: Option<Answer>, runId: string)
    requires Inv(s) && Owned(s) && Stuck(s, t) && Enabled(s, Reconciled(task, result, runId))
    ensures Stuck(Step(s, Reconciled(task, result, runId)), t)
  {
    var active, request := s.tasks[task].active, s.tasks[task].request;
    assert TaskFits(s.turns, s.tasks[task]) && Durable(s.tasks[task]);
    if result.Some? && Settles(result.value) {
      DurableIsEarlier(s, t, active);
      WriteKeepsStuck(s, t, active, result.value);
      SettleKeepsInv(s, active, result.value);
      CaptureKeepsStuck(Update(s, Terminal(active, result.value)), t, task, runId, request);
    } else {
      CaptureKeepsStuck(s, t, task, runId, request);
    }
  }

  /** A call that ends its own turn, which is an earlier one */
  lemma FinishKeepsStuck(s: State, t: Turn, task: nat, a: Answer)
    requires Inv(s) && Owned(s) && Stuck(s, t) && task in s.tasks && s.tasks[task].Executing? && Settles(a)
    ensures Stuck(FinishRun(s, task, s.tasks[task].turn, a), t)
  {
    var own := s.tasks[task].turn;
    assert TaskFits(s.turns, s.tasks[task]);
    DropKeepsStuck(s, task, t);
    var d := s.(live := s.live - {own.runId}, tasks := Without(s.tasks, task));
    DropIsHarmless(s, task, s.live - {own.runId}, own, a);
    assert s.turns[own.sequence - 1].runId == own.runId && own.runId != t.runId;
    WriteKeepsStuck(d, t, own, a);
  }

  lemma AnswerKeepsStuck(s: State, t: Turn, task: nat, answer: Answer)
    requires Inv(s) && Owned(s) && Stuck(s, t) && Enabled(s, Finished(task, answer))
    ensures Stuck(Step(s, Finished(task, answer)), t)
  {
    var c := s.tasks[task];
    if c.Executing? {
      FinishKeepsStuck(s, t, task, answer);
    } else {
      assert TaskFits(s.turns, c) && Durable(c);
      DurableIsEarlier(s, t, c.resumed);
      DropKeepsStuck(s, task, t);
      DropIsHarmless(s, task, s.live, c.resumed, answer);
      WriteKeepsStuck(s.(tasks := Without(s.tasks, task)), t, c.resumed, answer);
    }
  }

  lemma StepKeepsStuck(s: State, e: Event, t: Turn)
    requires Inv(s) && Owned(s) && Stuck(s, t) && e != Restart
    ensures Stuck(Step(s, e), t)
  {
    if Enabled(s, e) {
      match e
      case Begin(task, request, create, runId) => BeginKeepsStuck(s, t, task, request, create, runId);
      case Reconciled(task, result, runId) => ReconcileKeepsStuck(s, t, task, result, runId);
      case Selected(task, mode) =>
        var c := s.tasks[task];
        LaunchKeepsStuck(s, t, task, c.history, c.sequence, c.runId, mode, c.request.input);
      case Finished(task, answer) => AnswerKeepsStuck(s, t, task, answer);
      case Cancelled(task) => FinishKeepsStuck(s, t, task, INTERRUPTED);
      case Abandoned(task) => DropKeepsStuck(s, task, t);
      case BeginResume(task) => FirstActiveIsLast(s.turns);
    }
  }

  /** However calls go on in this process, the last turn stays as it is. */
  ghost predicate StaysForever(s: State) {
    forall events | FreshRun(s, events) && Restart !in events ::
      |Run(s, events).turns| == |s.turns| && LastTurnIs(Run(s, events), s)
  }

  predicate LastTurnIs(u: State, s: State) {
    u.turns != [] && s.turns != [] && LastTurn(u) == LastTurn(s)
  }

  lemma FreshFront(s: State, events: seq<Event>)
    requires events != [] && FreshRun(s, events)
    ensures FreshRun(s, events[..|events| - 1])
    ensures BringsFreshId(Run(s, events[..|events| - 1]), events[|events| - 1])
  {
    var front := events[..|events| - 1];
    forall n | 0 <= n < |front|
      ensures BringsFreshId(Run(s, front[..n]), front[n])
    {
      assert front[..n] == events[..n];
    }
  }

  lemma {:induction false} RunKeepsStuck(s: State, events: seq<Event>, t: Turn)
    requires Inv(s) && Owned(s) && Stuck(s, t) && FreshRun(s, events) && Restart !in events
    ensures Stuck(Run(s, events), t) && Inv(Run(s, events)) && Owned(Run(s, events))
    ensures |Run(s, events).turns| == |s.turns|
  {
    if events != [] {
      var front, e := events[..|events| - 1], events[|events| - 1];
      FreshFront(s, events);
      assert forall x | x in front :: x in events;
      RunKeepsStuck(s, front, t);
      StepKeepsStuck(Run(s, front), e, t);
      StepKeepsInv(Run(s, front), e);
      StepKeepsOwned(Run(s, front), e);
      StuckIsLast(Run(s, front), Step(Run(s, front), e), t);
    }
  }

  /** A stuck turn keeps its place. */
  lemma StuckIsLast(s: State, u: State, t: Turn)
    requires Inv(s) && Inv(u) && Stuck(s, t) && Stuck(u, t)
    ensures |u.turns| == |s.turns|
  {
    assert s.turns[|s.turns| - 1].sequence == |s.turns| && u.turns[|u.turns| - 1].sequence == |u.turns|;
  }

  /** A request that finds the orphan not at work settles it as lost. */
  lemma LostIsSettled(s: State, task: nat, request: Request, runId: string)
    requires Inv(s) && Orphaned(s) && LastTurn(s).runId !in s.live && task !in s.tasks
    ensures var u := Step(s, Begin(task, request, false, runId));
      |u.turns| >= |s.turns| && u.turns[|s.turns| - 1] == Terminal(LastTurn(s), LOST)
  {
    FirstActiveIsLast(s.turns);
    ActiveIsTurn(s.turns);
    var settled := Update(s, Terminal(LastTurn(s), LOST));
    SettledRefines(s.turns, LastTurn(s), LOST);
    SettleKeepsInv(s, LastTurn(s), LOST);
    CaptureKeepsTurns(settled, task, runId, request);
    assert Step(s, Begin(task, request, false, runId)) == Capture(settled, task, runId, request);
  }

  lemma CaptureKeepsTurns(s: State, task: nat, runId: string, request: Request)
    requires Inv(s)
    ensures |Capture(s, task, runId, request).turns| >= |s.turns|
    ensures forall i | 0 <= i < |s.turns| :: Capture(s, task, runId, request).turns[i] == s.turns[i]
  {
    LaunchShape(s, task, s.turns, |s.turns| + 1, runId, ModeOf(request), request.input);
  }

  // Numbers and identifiers that are not taken

  lemma NumberNotIn(taken: set<nat>) returns (n: nat)
    ensures forall k | k in taken :: k < n
  {
    n := 0;
    if taken != {} {
      var k :| k in taken;
      var rest := NumberNotIn(taken - {k});
      n := if rest <= k then k + 1 else rest;
      assert forall x | x in taken :: x == k || x in taken - {k};
    }
  }

  lemma IdNotIn(taken: set<string>) returns (id: string)
    ensures id !in taken
  {
    var lengths := set t | t in taken :: |t|;
    var longest := NumberNotIn(lengths);
    id := seq(longest, _ => 'a');
    forall t | t in taken
      ensures |t| < |id|
    {
      assert |t| in lengths;
    }
  }

  lemma FreshRequest(s: State) returns (task: nat, runId: string)
    ensures task !in s.tasks && FreshId(s, runId)
  {
    task := NumberNotIn(s.tasks.Keys);
    var turnIds := set i | 0 <= i < |s.turns| :: s.turns[i].runId;
    var taskIds := set k | k in s.tasks && s.tasks[k].Selecting? :: s.tasks[k].runId;
    runId := IdNotIn(turnIds + taskIds);
  }

  /** An ephemeral turn that no call executes stays running for ever in this process if and only if its run is still
      held as at work: requests find it neither over nor lost. */
  lemma OrphanStaysIff(s: State)
    requires Inv(s) && Owned(s) && Orphaned(s)
    ensures StaysForever(s) <==> LastTurn(s).runId in s.live
  {
    if LastTurn(s).runId in s.live {
      forall events | FreshRun(s, events) && Restart !in events
        ensures |Run(s, events).turns| == |s.turns| && LastTurnIs(Run(s, events), s)
      {
        RunKeepsStuck(s, events, LastTurn(s));
      }
    } else {
      var task, runId := FreshRequest(s);
      var e := Begin(task, Request("", Some(Direct)), false, runId);
      LostIsSettled(s, task, Request("", Some(Direct)), runId);
      RunOn(s, [], e);
      assert [] + [e] == [e];
      assert FreshRun(s, [e]);
    }
  }

  // In one process every active ephemeral turn is held as at work.

  predicate HoldsActive(turns: seq<Turn>, live: set<string>) {
    forall i | 0 <= i < |turns| && Active(turns[i]) && Ephemeral(turns[i].mode) :: turns[i].runId in live
  }

  lemma WriteKeepsHeld(s: State, t: Turn, a: Answer, live: set<string>)
    requires Inv(s) && IsTurn(s.turns, t) && Settles(a) && HoldsActive(s.turns, live) && DistinctRuns(s.turns)
    ensures HoldsActive(Update(s, Terminal(t, a)).turns, live)
    ensures HoldsActive(Update(s, Terminal(t, a)).turns, live - {t.runId})
  {
    SettledRefines(s.turns, t, a);
    var turns := Update(s, Terminal(t, a)).turns;
    forall i | 0 <= i < |turns| && Active(turns[i]) && Ephemeral(turns[i].mode)
      ensures turns[i].runId in live - {t.runId}
    {
      assert turns[i] == s.turns[i] && i != t.sequence - 1;
      assert s.turns[t.sequence - 1].runId == t.runId;
    }
  }

  lemma ChooseKeepsHeld(s: State, task: nat, history: seq<Turn>, sequence: nat, runId: string, request: Request)
    requires Inv(s) && HoldsActive(s.turns, s.live)
    ensures var u := Choose(s, task, history, sequence, runId, request); HoldsActive(u.turns, u.live)
  {
    LaunchShape(s, task, history, sequence, runId, ModeOf(request), request.input);
  }

  lemma CaptureKeepsHeld(s: State, task: nat, runId: string, request: Request)
    requires Inv(s) && HoldsActive(s.turns, s.live)
    ensures var u := Capture(s, task, runId, request); HoldsActive(u.turns, u.live)
  {
    ChooseKeepsHeld(s, task, s.turns, |s.turns| + 1, runId, request);
  }

  lemma SettleKeepsHeld(s: State, t: Turn, a: Answer, task: nat, runId: string, request: Request)
    requires Inv(s) && Owned(s) && HoldsActive(s.turns, s.live) && IsTurn(s.turns, t) && Settles(a)
    ensures var u := Capture(Update(s, Terminal(t, a)), task, runId, request); HoldsActive(u.turns, u.live)
  {
    WriteKeepsHeld(s, t, a, s.live);
    SettleKeepsInv(s, t, a);
    SettledRefines(s.turns, t, a);
    CaptureKeepsHeld(Update(s, Terminal(t, a)), task, runId, request);
  }

  lemma BeginKeepsHeld(s: State, task: nat, request: Request, create: bool, runId: string)
    requires Inv(s) && Owned(s) && HoldsActive(s.turns, s.live)
    ensures var u := BeginRun(s, task, request, create, runId); HoldsActive(u.turns, u.live)
  {
    if create {
      ChooseKeepsHeld(s, task, [], 1, runId, request);
    } else {
      CaptureKeepsHeld(s, task, runId, request);
      if FirstActive(s.turns).Some? {
        ActiveIsTurn(s.turns);
        SettleKeepsHeld(s, FirstActive(s.turns).value, LOST, task, runId, request);
      }
    }
  }

  lemma FinishKeepsHeld(s: State, task: nat, t: Turn, a: Answer, live: set<string>)
    requires Inv(s) && Owned(s) && HoldsActive(s.turns, s.live) && IsTurn(s.turns, t) && Settles(a)
    requires live == s.live || live == s.live - {t.runId}
    ensures var u := Update(s.(live := live, tasks := Without(s.tasks, task)), Terminal(t, a));
      HoldsActive(u.turns, u.live)
  {
    WriteKeepsHeld(s, t, a, s.live);
    SettledRefines(s.turns, t, a);
  }

  lemma StepKeepsHeld(s: State, e: Event)
    requires Inv(s) && Owned(s) && HoldsActive(s.turns, s.live) && e != Restart
    ensures HoldsActive(Step(s, e).turns, Step(s, e).live)
  {
    if Enabled(s, e) {
      match e
      case Begin(task, request, create, runId) => BeginKeepsHeld(s, task, request, create, runId);
      case Reconciled(task, result, runId) =>
        var c := s.tasks[task];
        assert TaskFits(s.turns, c);
        CaptureKeepsHeld(s, task, runId, c.request);
        if result.Some? && Settles(result.value) {
          SettleKeepsHeld(s, c.active, result.value, task, runId, c.request);
        }
      case Selected(task, mode) =>
        var c := s.tasks[task];
        LaunchShape(s, task, c.history, c.sequence, c.runId, mode, c.request.input);
      case Finished(task, answer) =>
        var c := s.tasks[task];
        assert TaskFits(s.turns, c);
        if c.Executing? {
          FinishKeepsHeld(s, task, c.turn, answer, s.live - {c.turn.runId});
        } else {
          FinishKeepsHeld(s, task, c.resumed, answer, s.live);
        }
      case Cancelled(task) =>
        var c := s.tasks[task];
        assert TaskFits(s.turns, c);
        FinishKeepsHeld(s, task, c.turn, INTERRUPTED, s.live - {c.turn.runId});
      case Abandoned(task) =>
      case BeginResume(task) =>
    }
  }

  lemma {:induction false} RunKeepsHeld(s: State, events: seq<Event>)
    requires Inv(s) && Owned(s) && HoldsActive(s.turns, s.live) && FreshRun(s, events) && Restart !in events
    ensures var u := Run(s, events); Inv(u) && Owned(u) && HoldsActive(u.turns, u.live)
  {
    if events != [] {
      var front, e := events[..|events| - 1], events[|events| - 1];
      FreshFront(s, events);
      assert forall x | x in front :: x in events;
      RunKeepsHeld(s, front);
      StepKeepsHeld(Run(s, front), e);
      StepKeepsInv(Run(s, front), e);
      StepKeepsOwned(Run(s, front), e);
    }
  }

  /** However calls interleave in one process: when the runner of an ephemeral turn could not be made, or was refused,
      the turn stays running for ever, and every later request for the conversation is refused. */
  lemma OrphansAreStuck(lookup: bool, selector: bool, events: seq<Event>)
    requires FreshRun(Empty(lookup, selector), events) && Restart !in events
    requires Orphaned(Run(Empty(lookup, selector), events))
    ensures StaysForever(Run(Empty(lookup, selector), events))
  {
    RunKeepsHeld(Empty(lookup, selector), events);
    OrphanStaysIff(Run(Empty(lookup, selector), events));
  }

  /** After a restart of the process nothing is held as at work: the next request settles the orphan as lost. */
  lemma RestartFreesOrphan(s: State, task: nat, request: Request, runId: string)
    requires Inv(s) && Owned(s) && s.turns != [] && Active(LastTurn(s)) && Ephemeral(LastTurn(s).mode)
    ensures Orphaned(Step(s, Restart)) && !StaysForever(Step(s, Restart))
    ensures var u := Step(Step(s, Restart), Begin(task, request, false, runId));
      |u.turns| >= |s.turns| && u.turns[|s.turns| - 1] == Terminal(LastTurn(s), LOST)
  {
    var restarted := Step(s, Restart);
    StepKeepsInv(s, Restart);
    StepKeepsOwned(s, Restart);
    OrphanStaysIff(restarted);
    LostIsSettled(restarted, task, request, runId);
  }

  // ----- Only durable turns make histories untrue -----

  predicate WritesDurable(s: State, e: Event) {
    Enabled(s, e) && SettlingWrite(s, e).Some? && !Ephemeral(SettlingWrite(s, e).value.0.mode)
  }

  lemma EphemeralIsHarmless(s: State, e: Event)
    requires Inv(s) && Owned(s) && Accurate(s) && !WritesDurable(s, e)
    ensures Harmless(s, e)
  {
    if Enabled(s, e) && SettlingWrite(s, e).Some? {
      var c := s.tasks[e.task];
      assert Durable(c) && TaskFits(s.turns, c);
      OwnedIsLast(s, e.task);
      NoneActive(s.turns);
      ActiveIsNotCaptured(s);
    }
  }

  /** Every ending that is written to a durable turn is harmless. */
  ghost predicate DurablyHarmless(s: State, events: seq<Event>) {
    forall n | 0 <= n < |events| && WritesDurable(Run(s, events[..n]), events[n]) ::
      Harmless(Run(s, events[..n]), events[n])
  }

  /** With fresh run identifiers the histories of a run stay accurate if and only if the endings written to durable
      turns are harmless; in a conversation without durable turns they always do. */
  lemma OnlyDurableWritesHarm(lookup: bool, selector: bool, events: seq<Event>)
    requires FreshRun(Empty(lookup, selector), events)
    ensures var s := Empty(lookup, selector); AlwaysAccurate(s, events) <==> DurablyHarmless(s, events)
  {
    var s := Empty(lookup, selector);
    HistoriesStayAccurateIff(lookup, selector, events);
    if DurablyHarmless(s, events) {
      forall n | 0 <= n <= |events|
        ensures Accurate(Run(s, events[..n]))
      {
        AccurateWithDurable(s, events, n);
      }
    }
  }

  lemma AccurateNext(s: State, e: Event)
    requires Inv(s) && Owned(s) && Accurate(s) && (WritesDurable(s, e) ==> Harmless(s, e))
    ensures Accurate(Step(s, e))
  {
    if !WritesDurable(s, e) {
      EphemeralIsHarmless(s, e);
    }
    StepIsAccurateIff(s, e);
  }

  lemma {:induction false} AccurateWithDurable(s: State, events: seq<Event>, n: nat)
    requires Inv(s) && Owned(s) && Accurate(s) && FreshRun(s, events) && DurablyHarmless(s, events) && n <= |events|
    ensures Accurate(Run(s, events[..n]))
  {
    if n > 0 {
      AccurateWithDurable(s, events, n - 1);
      RunKeepsOwned(s, events, n - 1);
      RunKeepsInv(s, events[..n - 1]);
      RunStep(s, events, n - 1);
      AccurateNext(Run(s, events[..n - 1]), events[n - 1]);
    }
  }

  // ----- A turn that is over may still change how it ended -----

  const DURABLE := Request("", Some(PlanExecute))
  const EPHEMERAL := Request("", Some(Direct))

  function TurnOf(sequence: nat, runId: string, mode: Mode): Turn {
    Turn(sequence, runId, mode, "", Running, None, None)
  }

  /** A durable turn at work */
  function AtWork(a: string): State {
    State([TurnOf(1, a, PlanExecute)], [[]], {}, map[0 := Executing(TurnOf(1, a, PlanExecute), [])], true, false)
  }

  /** A second call about to settle it by reconciliation */
  function AboutToSettle(a: string): State {
    AtWork(a).(tasks := map[0 := Executing(TurnOf(1, a, PlanExecute), []),
                            1 := Reconciling(TurnOf(1, a, PlanExecute), EPHEMERAL)])
  }

  lemma FirstCallLaunches(a: string)
    ensures Step(Empty(true, false), Begin(0, DURABLE, true, a)) == AtWork(a)
  {
    var t := TurnOf(1, a, PlanExecute);
    LaunchedTurns([], t.(status := Pending));
    assert [] + [t] == [t] && [] + [t.(status := Pending)] == [t.(status := Pending)];
  }

  lemma SecondCallReconciles(a: string, b: string)
    ensures Step(AtWork(a), Begin(1, EPHEMERAL, false, b)) == AboutToSettle(a)
  {
  }

  lemma SecondCallLaunches(a: string, b: string, bad: Answer)
    requires Settles(bad)
    ensures var s := Step(AboutToSettle(a), Reconciled(1, Some(bad), b));
      var over := Terminal(TurnOf(1, a, PlanExecute), bad);
      && s.turns == [over, TurnOf(2, b, Direct)] && s.histories == [[], [over]]
      && 0 in s.tasks && s.tasks[0] == Executing(TurnOf(1, a, PlanExecute), [])
  {
    var over := Terminal(TurnOf(1, a, PlanExecute), bad);
    var settled := AboutToSettle(a).(turns := [over]);
    assert Update(AboutToSettle(a), over) == settled by {
      UpdatedAt([TurnOf(1, a, PlanExecute)], over, 0);
      assert [TurnOf(1, a, PlanExecute)][0 := over] == [over];
    }
    CaptureLaunches(settled, over, b);
  }

  /** With one turn over and nothing active, an ephemeral request is launched as the second turn. */
  lemma CaptureLaunches(s: State, over: Turn, b: string)
    requires s.turns == [over] && over.sequence == 1 && !Active(over) && s.histories == [[]]
    ensures var u := Capture(s, 1, b, EPHEMERAL);
      && u.turns == [over, TurnOf(2, b, Direct)] && u.histories == [[], [over]]
      && forall k | k in s.tasks && k != 1 :: k in u.tasks && u.tasks[k] == s.tasks[k]
  {
    var t := TurnOf(2, b, Direct);
    LaunchedTurns([over], t.(status := Pending));
    assert [over] + [t] == [over, t];
    NoneActive([over]);
    assert s.histories + [[over]] == [[], [over]];
  }

  lemma AnswerRewrites(s: State, t: Turn, good: Answer)
    requires 0 in s.tasks && s.tasks[0] == Executing(t, []) && Settles(good)
    requires s.turns != [] && s.turns[0].sequence == t.sequence
    ensures Step(s, Finished(0, good)).turns == s.turns[0 := Terminal(t, good)]
    ensures Step(s, Finished(0, good)).histories == s.histories
  {
    UpdatedAt(s.turns, Terminal(t, good), 0);
  }

  /** A durable turn is started; a second call looks its run up and launches the next turn; then the first answers. */
  function LateAnswer(a: string, b: string, good: Answer, bad: Answer): seq<Event> {
    [Begin(0, DURABLE, true, a), Begin(1, EPHEMERAL, false, b), Reconciled(1, Some(bad), b), Finished(0, good)]
  }

  /** When a durable run is settled by reconciliation before its own runner answers, and differently (a looked-up
      result carries no answer text, say), the next turn starts with one ending and the conversation keeps the other. */
  lemma LateAnswerRewritesHistory(a: string, b: string, good: Answer, bad: Answer)
    requires Settles(good) && Settles(bad) && good != bad
    ensures var s := Run(Empty(true, false), LateAnswer(a, b, good, bad));
      && |s.turns| == 2 && |s.histories| == 2
      && s.histories[1] == [Terminal(TurnOf(1, a, PlanExecute), bad)]
      && s.turns[0] == Terminal(TurnOf(1, a, PlanExecute), good)
      && !Accurate(s)
  {
    var s0 := Empty(true, false);
    var e1, e2 := Begin(0, DURABLE, true, a), Begin(1, EPHEMERAL, false, b);
    var e3, e4 := Reconciled(1, Some(bad), b), Finished(0, good);
    RunOn(s0, [], e1);
    RunOn(s0, [e1], e2);
    RunOn(s0, [e1, e2], e3);
    RunOn(s0, [e1, e2, e3], e4);
    assert [] + [e1] == [e1] && [e1] + [e2] == [e1, e2] && [e1, e2] + [e3] == [e1, e2, e3];
    assert [e1, e2, e3] + [e4] == [e1, e2, e3, e4];
    FirstCallLaunches(a);
    SecondCallReconciles(a, b);
    SecondCallLaunches(a, b, bad);
    AnswerRewrites(Step(AboutToSettle(a), e3), TurnOf(1, a, PlanExecute), good);
    LateIsUntrue(Run(s0, LateAnswer(a, b, good, bad)), Terminal(TurnOf(1, a, PlanExecute), bad));
  }

  lemma LateIsUntrue(s: State, t: Turn)
    requires |s.turns| == 2 && |s.histories| == 2 && s.histories[1] == [t] && s.turns[0] != t
    ensures !Accurate(s)
  {
    assert s.turns[..1] == [s.turns[0]];
    assert !Begins(s.turns, s.histories[1]);
  }
}

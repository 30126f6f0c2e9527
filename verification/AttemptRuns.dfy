/** All the histories of one attempt: worker runs, deaths, expired leases, retries,
    resolutions and browser handovers, in any order, with a crash possible at every
    await. One worker drives an attempt at a time and a service call is one step. */
module AttemptRuns {
  import opened Wrappers
  import opened Execution
  import opened Platform
  import opened Runner
  import opened RunnerProperties
  import opened AttemptService
  import TaskModel

  /** Where the worker is with the task it claimed. */
  datatype WorkerState = Idle | Claimed | Handled(ok: bool)

  datatype Cell = Cell(durable: Attempt, tasks: seq<TaskState>, trace: Trace, worker: WorkerState) {
    function With(script: seq<Reply>): World {
      World(script, trace, durable, tasks)
    }

    function After(w: World): Cell {
      this.(durable := w.durable, tasks := w.tasks, trace := w.trace)
    }
  }

  /** What can happen to an attempt. `Retry` brings a retrying or blocked task back to the
      queue; the program never does that, so it only widens the histories for which safety
      is proved. */
  datatype Action =
    | Claim
    | Handle(env: RunEnv, script: seq<Reply>)
    | Finish(after: TaskState)
    | Die
    | Expire
    | Retry(task: nat)
    | Resolve(item: nat, resolution: Resolution, answer: Option<string>, hosts: Hosts, now: int, script: seq<Reply>)
    | Open(hosts: Hosts, script: seq<Reply>)

  function FirstIn(tasks: seq<TaskState>, state: TaskState): (r: Option<nat>)
    ensures r.Some? ==> r.value < |tasks| && tasks[r.value] == state
    ensures r.Some? ==> forall k :: 0 <= k < r.value ==> tasks[k] != state
    ensures r.None? ==> state !in tasks
  {
    if tasks == [] then None
    else if tasks[0] == state then Some(0)
    else
      var rest := FirstIn(tasks[1..], state);
      if rest.None? then None else Some(rest.value + 1)
  }

  /** Move the first task in state `from` to state `to`. */
  function Move(tasks: seq<TaskState>, from: TaskState, to: TaskState): (r: seq<TaskState>)
    ensures |r| == |tasks|
    ensures from !in tasks ==> r == tasks
  {
    var k := FirstIn(tasks, from);
    if k.None? then tasks else tasks[k.value := to]
  }

  /** The states `TaskQueue.fail` may leave a task in. */
  function AfterFailure(s: TaskState): TaskState {
    if s.Retrying? || s.Blocked? then s else TaskState.Failed
  }

  function Step(c: Cell, action: Action): Cell {
    match action
    case Claim =>
      if c.worker.Idle? && TaskState.Pending in c.tasks then
        c.(tasks := Move(c.tasks, TaskState.Pending, TaskState.Running), worker := Claimed)
      else c
    case Handle(env, script) =>
      if c.worker.Claimed? then
        var io := RunTask(c.With(script), env);
        c.After(io.world).(worker := Handled(io.Done?))
      else c
    case Finish(after) =>
      if c.worker.Handled? then
        var to := if c.worker.ok then TaskState.Succeeded else AfterFailure(after);
        c.(tasks := Move(c.tasks, TaskState.Running, to), worker := Idle)
      else c
    case Die => c.(worker := Idle)
    case Expire =>
      if c.worker.Idle? then c.(tasks := Move(c.tasks, TaskState.Running, TaskState.Pending)) else c
    case Retry(k) =>
      if k < |c.tasks| && (c.tasks[k].Retrying? || c.tasks[k].Blocked?) then
        c.(tasks := c.tasks[k := TaskState.Pending])
      else c
    case Resolve(i, r, answer, hosts, now, script) =>
      c.After(AttemptService.Resolve(c.With(script), i, r, answer, hosts, now).world)
    case Open(hosts, script) => c.After(OpenBrowser(c.With(script), hosts).world)
  }

  function Run(c: Cell, actions: seq<Action>): Cell
  {
    if actions == [] then c else Step(Run(c, actions[..|actions| - 1]), actions[|actions| - 1])
  }

  /** `start_for_job`: the attempt is saved and its task queued in one commit. */
  function Start(id: string, mode: ExecutionMode, host: Option<string>): Cell {
    var a := NewAttempt(id, mode, host);
    Cell(a, [TaskState.Pending], Then(Nothing, Committed(a)), Idle)
  }

  // ----- Every service call keeps the world safe -----

  lemma LaterTransitive(a: Attempt, b: Attempt, c: Attempt)
    requires Later(a, b) && Later(b, c)
    ensures Later(a, c)
  {
  }

  lemma CommitIsSafe(w: World, a: Attempt, queue: seq<TaskState>)
    requires Safe(w) && Tracks(w, a)
    ensures var io := w.Commit(a, queue);
            && Safe(io.world) && Later(w.durable, io.world.durable)
            && (io.Done? ==> io.world.durable == a && Tracks(io.world, a))
            && (io.world.tasks == w.tasks || io.world.tasks == queue)
  {
  }

  lemma AdoptIsLater(a: Attempt, i: Option<nat>, host: string, session: string)
    requires i.Some? ==> i.value < |a.interventions|
    ensures var b := Adopt(a, i, host, session);
            && Later(a, b) && b.submissionAttemptedAt == a.submissionAttemptedAt
            && (RowOk(a) ==> RowOk(b))
            && (forall k :: 0 <= k < |a.interventions| ==> a.interventions[k].IsOpen() == b.interventions[k].IsOpen())
  {
  }

  lemma {:induction false} OpenSessionIsSafe(w: World, a: Attempt, i: Option<nat>, host: string, requested: string)
    requires i.Some? ==> i.value < |a.interventions|
    requires Safe(w) && Tracks(w, a)
    ensures var io := OpenSession(w, a, i, host, requested);
            && Safe(io.world) && Later(w.durable, io.world.durable) && io.world.tasks == w.tasks
            && (io.Done? ==> Tracks(io.world, io.value.0))
  {
    var created := w.CreateSession(requested);
    assert Safe(created.world) && created.world.durable == w.durable && created.world.tasks == w.tasks;
    if created.Done? && Present(created.value) {
      var b := Adopt(a, i, host, created.value.value);
      AdoptIsLater(a, i, host, created.value.value);
      LaterTransitive(w.durable, a, b);
      assert Tracks(created.world, b);
      CommitIsSafe(created.world, b, w.tasks);
    }
  }

  lemma {:induction false} BindIsSafe(w: World, a: Attempt, hosts: Hosts, i: Option<nat>)
    requires i.Some? ==> i.value < |a.interventions|
    requires Safe(w) && Tracks(w, a)
    ensures var io := BindSession(w, a, hosts, i);
            && Safe(io.world) && Later(w.durable, io.world.durable) && io.world.tasks == w.tasks
            && (io.Done? ==> Tracks(io.world, io.value.0))
  {
    var (host, session) := Target(a, i);
    if IsConnected(hosts, host) {
      OpenSessionIsSafe(w, a, i, host.value, if Present(session) then session.value else a.id);
    }
  }

  lemma PausingTracks(w: World, a: Attempt, handoff: bool)
    requires Tracks(w, a)
    ensures Tracks(w, PauseForBrowser(a, handoff).attempt)
  {
  }

  lemma {:induction false} AcquireIsSafe(w: World, a: Attempt, env: RunEnv)
    requires Safe(w) && Tracks(w, a)
    ensures var io := Acquire(w, a, env);
            && Safe(io.world) && io.world.durable == w.durable && io.world.tasks == w.tasks
            && (io.Done? ==> Tracks(io.world, io.value.attempt))
  {
    PausingTracks(w, a, false);
    PausingTracks(w, a, env.needsHandoff);
    var asked := if a.backend.Some? then Done(w, a.backend) else w.Ask();
    assert Safe(asked.world) && asked.world.durable == w.durable;
    if asked.Done? && asked.value.Some? {
      var b := if a.backend.Some? then a else a.(backend := asked.value).RecordEvent(BrowserSelected);
      PausingTracks(w, b, env.needsHandoff);
    }
  }

  lemma {:induction false} RunStepIsSafe(w: World, a: Attempt, env: RunEnv)
    requires Safe(w) && Tracks(w, a)
    ensures var io := RunStep(w, a, env);
            Safe(io.world) && Later(w.durable, io.world.durable) && io.world.tasks == w.tasks
  {
    if !env.driverFound {
      CommitIsSafe(w, a.(state := WorkflowState.Failed), w.tasks);
    } else {
      var c := env.context.(mode := a.mode);
      RunFormIsSafe(w, a, c);
      var ran := RunForm(w, a, c);
      if ran.Done? {
        var (b, kind) := ran.value;
        var d := if kind.Waiting? then b.(state := WaitingForHuman) else b;
        assert d == b;
        CommitIsSafe(ran.world, d, ran.world.tasks);
        LaterTransitive(w.durable, ran.world.durable, ran.world.Commit(d, ran.world.tasks).world.durable);
      }
    }
  }

  lemma {:induction false} RunTaskIsSafe(w: World, env: RunEnv)
    requires Safe(w)
    ensures var io := RunTask(w, env);
            Safe(io.world) && Later(w.durable, io.world.durable) && io.world.tasks == w.tasks
  {
    var a := w.durable;
    if !env.jobFound {
      CommitIsSafe(w, a.(state := WorkflowState.Failed), w.tasks);
    } else {
      BindIsSafe(w, a, env.hosts, None);
      var bound := BindSession(w, a, env.hosts, None);
      if bound.Done? {
        var (b, attached) := bound.value;
        if attached {
          RunStepIsSafe(bound.world, b, env);
          LaterTransitive(w.durable, bound.world.durable, RunStep(bound.world, b, env).world.durable);
        } else {
          AcquireThenRunIsSafe(bound.world, b, env);
          LaterTransitive(w.durable, bound.world.durable, AcquireThenRun(bound.world, b, env).world.durable);
        }
      }
    }
  }

  function AcquireThenRun(w: World, a: Attempt, env: RunEnv): Io<()> {
    var (w, acquired) :- Acquire(w, a, env);
    match acquired
    case Paused(a) => w.Commit(a, w.tasks)
    case Ready(a) => RunStep(w, a, env)
  }

  lemma {:induction false} AcquireThenRunIsSafe(w: World, a: Attempt, env: RunEnv)
    requires Safe(w) && Tracks(w, a)
    ensures var io := AcquireThenRun(w, a, env);
            Safe(io.world) && Later(w.durable, io.world.durable) && io.world.tasks == w.tasks
  {
    AcquireIsSafe(w, a, env);
    var acquired := Acquire(w, a, env);
    if acquired.Done? {
      match acquired.value
      case Paused(b) => CommitIsSafe(acquired.world, b, acquired.world.tasks);
      case Ready(b) => RunStepIsSafe(acquired.world, b, env);
    }
  }

  lemma EmitIsSafe(w: World, e: Effect)
    requires Safe(w) && !e.Clicked? && !e.Filled? && !e.Uploaded?
    ensures Safe(w.Emit(e))
  {
  }

  lemma AskForControlIsSafe(w: World)
    requires Safe(w)
    ensures var io := w.AskForControl();
            Safe(io.world) && io.world.durable == w.durable && io.world.tasks == w.tasks
  {
    EmitIsSafe(w.Advance(), ReclaimRequested);
    EmitIsSafe(w.Advance().Emit(ReclaimRequested), ReclaimAnswered(w.Next().Reply? && w.Next().ok));
  }

  lemma ReadOwnerIsSafe(w: World)
    requires Safe(w)
    ensures var io := w.ReadOwner(); Safe(io.world) && io.world.durable == w.durable && io.world.tasks == w.tasks
  {
    EmitIsSafe(w.Advance(), OwnerRead(if w.Next().Reply? then w.Next().owner else User));
  }

  lemma TakeBackIsSafe(w: World, a: Attempt)
    requires Safe(w) && Tracks(w, a)
    ensures var io := TakeBack(w, a);
            && Safe(io.world) && io.world.durable == w.durable && io.world.tasks == w.tasks
            && (io.Done? ==> Tracks(io.world, io.value.0))
  {
    AskForControlIsSafe(w);
    var asked := w.AskForControl();
    if asked.Done? && asked.value {
      ReadOwnerIsSafe(asked.world);
    }
  }

  lemma {:induction false} ReclaimIsSafe(w: World, a: Attempt, i: nat, hosts: Hosts)
    requires i < |a.interventions|
    requires Safe(w) && Tracks(w, a)
    ensures var io := Reclaim(w, a, i, hosts);
            && Safe(io.world) && Later(w.durable, io.world.durable) && io.world.tasks == w.tasks
            && (io.Done? ==> Tracks(io.world, io.value.0))
  {
    if a.interventions[i].handoff {
      var (host, session) := Target(a, Some(i));
      if IsConnected(hosts, host) {
        var b := a.(host := host, session := session);
        BindIsSafe(w, b, hosts, Some(i));
        var bound := BindSession(w, b, hosts, Some(i));
        if bound.Done? && bound.value.1 {
          TakeBackIsSafe(bound.world, bound.value.0);
        }
      }
    }
  }

  lemma SettleIsSafe(w: World, a: Attempt, i: nat, r: Resolution, ours: bool)
    requires i < |a.interventions|
    requires Safe(w) && Tracks(w, a)
    ensures var io := Settle(w, a, i, r, ours);
            Safe(io.world) && Later(w.durable, io.world.durable)
  {
    if !ours {
      CommitIsSafe(w, a, w.tasks);
    } else {
      var b := a.ResolveIntervention(i, r).(state := WorkflowState.Pending).RecordEvent(Resumed);
      assert Later(a, b);
      LaterTransitive(w.durable, a, b);
      CommitIsSafe(w, b, Enqueue(w.tasks));
    }
  }

  lemma TakeAnswerTracks(w: World, a: Attempt, i: nat, r: Resolution, answer: Option<string>)
    requires i < |a.interventions| && Tracks(w, a)
    ensures var b := TakeAnswer(a, i, r, answer); Tracks(w, b) && b.interventions == a.interventions
  {
  }

  lemma {:induction false} ResumeIsSafe(w: World, a: Attempt, i: nat, r: Resolution, answer: Option<string>,
      hosts: Hosts)
    requires i < |a.interventions|
    requires Safe(w) && Tracks(w, a)
    ensures var io := Resume(w, a, i, r, answer, hosts);
            Safe(io.world) && Later(w.durable, io.world.durable)
  {
    var b := TakeAnswer(a, i, r, answer);
    TakeAnswerTracks(w, a, i, r, answer);
    ReclaimIsSafe(w, b, i, hosts);
    var reclaimed := Reclaim(w, b, i, hosts);
    if reclaimed.Done? {
      var (d, ours) := reclaimed.value;
      SettleIsSafe(reclaimed.world, d, i, r, ours);
      LaterTransitive(w.durable, reclaimed.world.durable, Settle(reclaimed.world, d, i, r, ours).world.durable);
    }
  }

  lemma {:induction false} ResolveIsSafe(w: World, i: nat, r: Resolution, answer: Option<string>, hosts: Hosts,
      now: int)
    requires Safe(w)
    ensures var io := AttemptService.Resolve(w, i, r, answer, hosts, now);
            Safe(io.world) && Later(w.durable, io.world.durable)
  {
    var a := w.durable;
    if i < |a.interventions| {
      if r.KeepControl? {
        CommitIsSafe(w, a.RecordEvent(ControlKept).(state := WaitingForHuman), w.tasks);
      } else if a.interventions[i].IsOpen() {
        if Resumes(r) {
          ResumeIsSafe(w, a, i, r, answer, hosts);
        } else {
          CommitIsSafe(w, a.ResolveIntervention(i, r).Cancelled(now), w.tasks);
        }
      }
    }
  }

  lemma OpenBrowserIsSafe(w: World, hosts: Hosts)
    requires Safe(w)
    ensures var io := OpenBrowser(w, hosts);
            Safe(io.world) && Later(w.durable, io.world.durable)
  {
    var a := w.durable;
    if a.interventions != [] {
      var i := ShownItem(a);
      BindIsSafe(w, a, hosts, Some(i));
      AskingIsSafe(BindSession(w, a, hosts, Some(i)).world);
    }
  }

  lemma AskingIsSafe(w: World)
    requires Safe(w)
    ensures var io := w.Act(HandoffRequested); Safe(io.world) && io.world.durable == w.durable
  {
  }

  lemma {:induction false} HandleIsSafe(c: Cell, env: RunEnv, script: seq<Reply>)
    requires Safe(c.With([]))
    ensures var io := RunTask(c.With(script), env);
            Safe(c.After(io.world).With([])) && Later(c.durable, io.world.durable)
  {
    assert Safe(c.With(script));
    RunTaskIsSafe(c.With(script), env);
  }

  lemma {:induction false} ResolvingIsSafe(
      c: Cell, i: nat, r: Resolution, answer: Option<string>, hosts: Hosts, now: int, script: seq<Reply>)
    requires Safe(c.With([]))
    ensures var io := AttemptService.Resolve(c.With(script), i, r, answer, hosts, now);
            Safe(c.After(io.world).With([])) && Later(c.durable, io.world.durable)
  {
    assert Safe(c.With(script));
    ResolveIsSafe(c.With(script), i, r, answer, hosts, now);
  }

  lemma OpeningIsSafe(c: Cell, hosts: Hosts, script: seq<Reply>)
    requires Safe(c.With([]))
    ensures var io := OpenBrowser(c.With(script), hosts);
            Safe(c.After(io.world).With([])) && Later(c.durable, io.world.durable)
  {
    assert Safe(c.With(script));
    OpenBrowserIsSafe(c.With(script), hosts);
  }

  lemma {:induction false} StepIsSafe(c: Cell, action: Action)
    requires Safe(c.With([]))
    ensures Safe(Step(c, action).With([]))
    ensures Later(c.durable, Step(c, action).durable)
  {
    match action
    case Handle(env, script) => HandleIsSafe(c, env, script);
    case Resolve(i, r, answer, hosts, now, script) => ResolvingIsSafe(c, i, r, answer, hosts, now, script);
    case Open(hosts, script) => OpeningIsSafe(c, hosts, script);
    case _ =>
  }

  // ----- Main results -----

  lemma {:induction false} RunIsSafe(c: Cell, actions: seq<Action>)
    requires Safe(c.With([]))
    ensures Safe(Run(c, actions).With([]))
    ensures Later(c.durable, Run(c, actions).durable)
  {
    if actions != [] {
      RunIsSafe(c, actions[..|actions| - 1]);
      StepIsSafe(Run(c, actions[..|actions| - 1]), actions[|actions| - 1]);
    }
  }

  lemma StartIsSafe(id: string, mode: ExecutionMode, host: Option<string>)
    ensures Safe(Start(id, mode, host).With([]))
  {
  }

  /** Over every history of an attempt its submit click is issued at most once, and
      never without the durable marker. */
  lemma {:induction false} AtMostOneClick(id: string, mode: ExecutionMode, host: Option<string>, actions: seq<Action>)
    ensures var c := Run(Start(id, mode, host), actions);
            && Clicks(c.trace) <= 1
            && (Clicks(c.trace) > 0 ==> c.durable.submissionAttemptedAt.Some?)
            && (c.durable.submissionAttemptedAt.Some? ==> mode.AutonomousSubmit?)
  {
    StartIsSafe(id, mode, host);
    RunIsSafe(Start(id, mode, host), actions);
  }

  lemma {:induction false} GuardedAt(t: Trace, past: Trace, e: Effect)
    requires Guarded(t) && Extends(Then(past, e), t)
    ensures e.Clicked? ==> Permitted(past, e)
    ensures e.Filled? || e.Uploaded? ==> Touchable(View(past))
  {
    if t != Then(past, e) {
      GuardedAt(t.past, past, e);
    }
  }

  /** Every click was permitted by the run it happened in and follows directly on the
      commit of a row that carries the marker. */
  lemma {:induction false} EveryClickIsPermitted(
      id: string, mode: ExecutionMode, host: Option<string>, actions: seq<Action>, past: Trace, e: Effect)
    requires Extends(Then(past, e), Run(Start(id, mode, host), actions).trace) && e.Clicked?
    ensures Permitted(past, e)
    ensures past.Then? && past.effect.Committed? && past.effect.row.submissionAttemptedAt.Some?
  {
    StartIsSafe(id, mode, host);
    RunIsSafe(Start(id, mode, host), actions);
    GuardedAt(Run(Start(id, mode, host), actions).trace, past, e);
  }

  /** No run ever fills a field or uploads a document in another mode than the two that may,
      while a human owns the browser, or on a page that waits for one. */
  lemma {:induction false} EveryTouchIsPermitted(
      id: string, mode: ExecutionMode, host: Option<string>, actions: seq<Action>, past: Trace, e: Effect)
    requires Extends(Then(past, e), Run(Start(id, mode, host), actions).trace) && (e.Filled? || e.Uploaded?)
    ensures Touchable(View(past))
  {
    StartIsSafe(id, mode, host);
    RunIsSafe(Start(id, mode, host), actions);
    GuardedAt(Run(Start(id, mode, host), actions).trace, past, e);
  }

  lemma {:induction false} RunSplits(c: Cell, before: seq<Action>, after: seq<Action>)
    ensures Run(c, before + after) == Run(Run(c, before), after)
    decreases |after|
  {
    if after == [] {
      assert before + after == before;
    } else {
      var init := after[..|after| - 1];
      assert (before + after)[..|before + after| - 1] == before + init;
      RunSplits(c, before, init);
    }
  }

  /** Whatever happens later, a durable marker keeps its value, the event log keeps its
      entries, and a closed intervention stays closed. */
  lemma {:induction false} NothingIsUnsaid(id: string, mode: ExecutionMode, host: Option<string>,
      before: seq<Action>, after: seq<Action>)
    ensures Later(Run(Start(id, mode, host), before).durable, Run(Start(id, mode, host), before + after).durable)
  {
    var s := Start(id, mode, host);
    StartIsSafe(id, mode, host);
    RunIsSafe(s, before);
    RunIsSafe(Run(s, before), after);
    RunSplits(s, before, after);
  }

  /** A COMPLETED attempt that may submit carries evidence that confirms the submission. */
  lemma {:induction false} CompletedIsEvidenced(id: string, mode: ExecutionMode, host: Option<string>,
      actions: seq<Action>)
    ensures var a := Run(Start(id, mode, host), actions).durable;
            && (a.state.Completed? && a.submissionAttemptedAt.Some? ==> Completes(a.evidence.certainty))
            && (a.state.Completed? && mode.AutonomousSubmit? ==> Completes(a.evidence.certainty))
  {
    StartIsSafe(id, mode, host);
    RunIsSafe(Start(id, mode, host), actions);
  }
}

/** Histories the source allows although its documentation rules them out. */
module AttemptWitnesses {
  import opened Wrappers
  import opened Execution
  import opened Platform
  import opened Runner
  import opened RunnerProperties
  import opened AttemptService
  import opened AttemptRuns
  import opened AttemptResults
  import TaskModel

  // ----- Runs on a local browser whose every call is answered -----

  predicate Answered(script: seq<Reply>) {
    forall i :: 0 <= i < |script| ==> script[i].Reply? && script[i].ok && script[i].owner.Agent? && script[i].name.Some?
  }

  /** A run with a job, a driver, no hosts and no stored session needs only the local browser. */
  predicate LocalEnv(env: RunEnv) {
    env.jobFound && env.driverFound && env.hosts.None?
  }

  /** What acquiring the local browser makes of the attempt. */
  function Acquiring(a: Attempt, slug: Option<string>): Attempt {
    var a := if a.backend.Some? then a else a.(backend := slug).RecordEvent(BrowserSelected);
    a.(session := Some(a.id))
  }

  function AcquireCost(a: Attempt): nat {
    if a.backend.Some? then 1 else 2
  }

  /** What the worker does with the outcome of the form flow. */
  function Saved(ran: Io<(Attempt, OutcomeKind)>): Io<()> {
    var (w, outcome) :- ran;
    w.Commit(if outcome.1.Waiting? then outcome.0.(state := WaitingForHuman) else outcome.0, w.tasks)
  }

  /** A local run gets its browser and is left with the form. */
  lemma LocalTask(w: World, env: RunEnv)
    requires LocalEnv(env) && Answered(w.script) && |w.script| >= AcquireCost(w.durable)
    ensures var v := w.(script := w.script[AcquireCost(w.durable)..]);
            var a := Acquiring(w.durable, w.script[0].name);
            && a.mode == w.durable.mode && a.interventions == w.durable.interventions
            && a.submissionAttemptedAt == w.durable.submissionAttemptedAt
            && RunTask(w, env) == Saved(RunForm(v, a, env.context.(mode := w.durable.mode)))
  {
    var a := w.durable;
    assert BindSession(w, a, env.hosts, None) == Done(w, (a, false));
    assert Acquire(w, a, env) == Done(w.(script := w.script[AcquireCost(a)..]), Ready(Acquiring(a, w.script[0].name)));
  }

  /** An unmarked run owned by the agent starts by opening the form. */
  function Opening(a: Attempt, page: Page): Attempt {
    var a := a.(state := WorkflowState.Running);
    var a := if a.events == [] then a.RecordEvent(Started) else a;
    a.RecordObservation(Summary(page)).RecordCheckpoint(ApplicationOpened)
  }

  function Arrived(w: World, c: DriverContext): World
    requires |w.script| >= 2 && w.script[1].Reply?
  {
    w.Emit(Began(c)).Emit(OwnerRead(Agent)).Emit(Navigated(c.applyUrl)).Emit(PageRead(w.script[1].page))
      .(script := w.script[2..])
  }

  lemma UnmarkedRun(w: World, a: Attempt, c: DriverContext)
    requires Answered(w.script) && |w.script| >= 2
    requires a.submissionAttemptedAt.None?
    requires !NeedsHandoff(w.script[1].page.condition)
    ensures var page := w.script[1].page;
            var (b, paused) := AdvanceQuestions(Opening(a, page), page.questions, c);
            RunForm(w, a, c) ==
            if paused then Done(Arrived(w, c), (b, Waiting)) else FillAndSubmit(Arrived(w, c), b, page, c)
  {
    var owned := w.Emit(Began(c)).ReadOwner();
    assert owned.Done? && owned.value.Agent?;
    assert owned.world.script == w.script[1..];
    var r := a.(state := WorkflowState.Running);
    var b := if r.events == [] then r.RecordEvent(Started) else r;
    assert RunForm(w, a, c) == OpenForm(owned.world, b, c);
    var arrived := owned.world.Navigate(c.applyUrl);
    assert arrived == Done(Arrived(w, c), w.script[1].page);
  }

  // ----- A resume that is lost -----

  /** A run that stops on a question commits the pause and nothing else. */
  lemma {:induction false} PausingTask(c: Cell, env: RunEnv, script: seq<Reply>)
    requires c.worker.Claimed? && LocalEnv(env) && Answered(script) && c.durable.submissionAttemptedAt.None?
    requires |script| == AcquireCost(c.durable) + 3
    requires var page := script[AcquireCost(c.durable) + 1].page;
             !NeedsHandoff(page.condition)
             && exists q :: q in page.questions && env.context.(mode := c.durable.mode).decide(q).Stops()
    ensures var d := Step(c, Handle(env, script));
            && d.worker == Handled(true) && d.tasks == c.tasks && Clicks(d.trace) == Clicks(c.trace)
            && d.durable.state.WaitingForHuman? && d.durable.submissionAttemptedAt.None?
            && d.durable.mode == c.durable.mode && d.durable.backend.Some? && d.durable.host == c.durable.host
            && |d.durable.interventions| == |c.durable.interventions| + 1
            && d.durable.interventions[..|c.durable.interventions|] == c.durable.interventions
            && d.durable.interventions[|c.durable.interventions|].IsOpen()
            && !d.durable.interventions[|c.durable.interventions|].handoff
  {
    var w := c.With(script);
    var k := AcquireCost(w.durable);
    LocalTask(w, env);
    var w2 := w.(script := script[k..]);
    var a := Acquiring(w.durable, script[0].name);
    var ctx := env.context.(mode := a.mode);
    UnmarkedRun(w2, a, ctx);
    var page := script[k + 1].page;
    PauseKeepsRest(Opening(a, page), page.questions, ctx);
    var (b, paused) := AdvanceQuestions(Opening(a, page), page.questions, ctx);
    assert RunForm(w2, a, ctx) == Done(Arrived(w2, ctx), (b, Waiting));
    assert Arrived(w2, ctx).script == script[k + 2..];
    ArrivingIsClickless(w2, ctx);
  }

  lemma ArrivingIsClickless(w: World, c: DriverContext)
    requires |w.script| >= 2 && w.script[1].Reply?
    ensures Clicks(Arrived(w, c).trace) == Clicks(w.trace)
  {
    var x := w.Emit(Began(c)).Emit(OwnerRead(Agent));
    assert Clicks(x.trace) == Clicks(w.trace);
  }

  lemma {:induction false} PauseKeepsRest(a: Attempt, qs: seq<Question>, c: DriverContext)
    requires exists q :: q in qs && c.decide(q).Stops()
    ensures var (b, paused) := AdvanceQuestions(a, qs, c);
            && paused && b.state.WaitingForHuman? && b.mode == a.mode && b.host == a.host && b.backend == a.backend
            && b.submissionAttemptedAt == a.submissionAttemptedAt
            && |b.interventions| == |a.interventions| + 1
            && b.interventions[..|a.interventions|] == a.interventions
            && b.interventions[|a.interventions|].IsOpen() && !b.interventions[|a.interventions|].handoff
    decreases |qs|
  {
    if !c.decide(qs[0]).Stops() {
      PauseKeepsRest(TakeQuestion(a, qs[0], c), qs[1..], c);
    }
  }

  /** Whenever the user resolves an in-app pause after its run was committed but before
      its task was marked finished, the resume is absorbed by the running task: the
      attempt ends up PENDING with its pause closed, and nothing will ever drive it. */
  lemma ResumeDuringRunIsLost(c: Cell, i: nat, hosts: Hosts, now: int, reply: Reply)
    requires c.worker == Handled(true) && reply.Reply?
    requires forall k :: 0 <= k < |c.tasks| ==> Over(c.tasks[k]) || (k == |c.tasks| - 1 && c.tasks[k].Running?)
    requires c.tasks != [] && c.tasks[|c.tasks| - 1].Running?
    requires i < |c.durable.interventions| && !c.durable.interventions[i].handoff
    requires forall k :: 0 <= k < |c.durable.interventions| ==> (c.durable.interventions[k].IsOpen() <==> k == i)
    ensures var d := Step(Step(c, Action.Resolve(i, DoneContinue, None, hosts, now, [reply])),
            Finish(TaskState.Failed));
            Inert(d) && d.durable.state == WorkflowState.Pending
  {
    var w := c.With([reply]);
    var a := w.durable;
    assert Reclaim(w, a, i, hosts) == Done(w, (a, true));
    var b := a.ResolveIntervention(i, DoneContinue).(state := WorkflowState.Pending).RecordEvent(Resumed);
    assert Enqueue(c.tasks) == c.tasks;
    var resumed := Step(c, Action.Resolve(i, DoneContinue, None, hosts, now, [reply]));
    assert resumed.durable == b && resumed.tasks == c.tasks;
    var k := FirstIn(c.tasks, TaskState.Running);
    assert k == Some(|c.tasks| - 1);
  }

  function Form(submit: bool): Page {
    Page("form", PageOk, None,
         if submit then [Element("go", true, false, Some("Submit"))] else [],
         [Question("visa", false, None)])
  }

  function Env(stop: bool): RunEnv {
    RunEnv(true, true, false, None,
           DriverContext(AutonomousSubmit,
                         (q: Question) => Decision(AnswerDraft(q.key, None, NeedsUser), stop),
                         None, (e: Element) => e.isButton, "form", 0))
  }

  function Replies(submit: bool, n: nat): (s: seq<Reply>)
    ensures |s| == n && Answered(s)
    ensures forall i :: 0 <= i < n ==> s[i].page == Form(submit)
  {
    seq(n, i => Reply(Agent, Form(submit), true, Some("playwright")))
  }

  function FirstPause(): Cell {
    Step(Step(Start("a", AutonomousSubmit, None), Claim), Handle(Env(true), Replies(true, 5)))
  }

  lemma {:induction false} FirstPauseStands()
    ensures var c := FirstPause();
            && c.worker == Handled(true) && c.tasks == [TaskState.Running] && Clicks(c.trace) == 0
            && |c.durable.interventions| == 1
            && c.durable.interventions[0].IsOpen() && !c.durable.interventions[0].handoff
            && c.durable.backend.Some? && c.durable.submissionAttemptedAt.None? && c.durable.mode.AutonomousSubmit?
  {
    var c := Step(Start("a", AutonomousSubmit, None), Claim);
    assert c.tasks == [TaskState.Running];
    assert Question("visa", false, None) in Form(true).questions;
    PausingTask(c, Env(true), Replies(true, 5));
  }

  /** The lost resume is reachable from a fresh attempt. */
  lemma {:induction false} ResumeIsLost()
    ensures var reply := Replies(true, 1)[0];
            var d := Step(Step(FirstPause(), Action.Resolve(0, DoneContinue, None, None, 0, [reply])),
              Finish(TaskState.Failed));
            Inert(d) && d.durable.state == WorkflowState.Pending
  {
    FirstPauseStands();
    ResumeDuringRunIsLost(FirstPause(), 0, None, 0, Replies(true, 1)[0]);
  }

  /** What a run makes of a page that stops on nothing and has nothing to fill or attach. */
  function Passed(w: World, a: Attempt, page: Page, c: DriverContext): Io<(Attempt, OutcomeKind)> {
    var submit := FirstSubmit(page.elements, c.isSubmit);
    if submit.None? then Done(w, (a.RecordCheckpoint(ReviewPageReached), Continued))
    else if !MaySubmit(c.mode) then
      Done(w, (a.RecordCheckpoint(ReviewPageReached).(state := WorkflowState.Completed), CompletedRun))
    else Submit(w, a, submit.value, c.now)
  }

  predicate NothingToDo(page: Page, c: DriverContext) {
    && !NeedsHandoff(page.condition)
    && (forall q :: q in page.questions ==> !c.decide(q).Stops() && q.locator.None?)
    && FileInputs(page.elements) == []
  }

  lemma PassingRun(w: World, a: Attempt, c: DriverContext) returns (g: Attempt)
    requires Answered(w.script) && |w.script| >= 2 && a.submissionAttemptedAt.None? && MayFill(c.mode)
    requires NothingToDo(w.script[1].page, c)
    ensures RunForm(w, a, c) == Passed(Arrived(w, c), g, w.script[1].page, c)
    ensures g.submissionAttemptedAt.None? && g.interventions == a.interventions && g.state.Running? && g.mode == a.mode
    ensures Arrived(w, c).script == w.script[2..] && Clicks(Arrived(w, c).trace) == Clicks(w.trace)
  {
    var page := w.script[1].page;
    UnmarkedRun(w, a, c);
    var (b, paused) := AdvanceQuestions(Opening(a, page), page.questions, c);
    QuestionsKeepSubmission(Opening(a, page), page.questions, c);
    NothingToFill(Arrived(w, c), b.answers, page.questions);
    g := b.RecordCheckpoint(QuestionnaireComplete);
    ArrivingIsClickless(w, c);
  }

  /** A local run past everything before the submit control. */
  lemma LocalPassing(w: World, env: RunEnv) returns (x: World, g: Attempt)
    requires LocalEnv(env) && Answered(w.script) && |w.script| >= AcquireCost(w.durable) + 2
    requires w.durable.submissionAttemptedAt.None? && MayFill(w.durable.mode)
    requires NothingToDo(w.script[AcquireCost(w.durable) + 1].page, env.context)
    ensures var page := w.script[AcquireCost(w.durable) + 1].page;
            RunTask(w, env) == Saved(Passed(x, g, page, env.context.(mode := w.durable.mode)))
    ensures x.script == w.script[AcquireCost(w.durable) + 2..] && x.tasks == w.tasks
    ensures Clicks(x.trace) == Clicks(w.trace)
    ensures g.submissionAttemptedAt.None? && g.interventions == w.durable.interventions && g.state.Running?
    ensures g.mode == w.durable.mode
  {
    var v := w.(script := w.script[AcquireCost(w.durable)..]);
    var a := Acquiring(w.durable, w.script[0].name);
    var ctx := env.context.(mode := w.durable.mode);
    LocalTask(w, env);
    g := PassingRun(v, a, ctx);
    x := Arrived(v, ctx);
  }

  // ----- A skipped attempt that still clicks -----

  /** A claimed run on an unmarked autonomous attempt clicks when the page lets it,
      whatever workflow state the row was in: no run looks at that state. */
  lemma {:induction false} ClaimedRunClicks(c: Cell, env: RunEnv, script: seq<Reply>)
    requires c.worker.Claimed? && LocalEnv(env) && Answered(script)
    requires c.durable.submissionAttemptedAt.None? && c.durable.mode.AutonomousSubmit?
    requires |script| >= AcquireCost(c.durable) + 5
    requires var page := script[AcquireCost(c.durable) + 1].page;
             NothingToDo(page, env.context) && FirstSubmit(page.elements, env.context.isSubmit).Some?
    ensures Clicks(Step(c, Handle(env, script)).trace) == Clicks(c.trace) + 1
  {
    var w := c.With(script);
    var x, g := LocalPassing(w, env);
    var ctx := env.context.(mode := w.durable.mode);
    SubmitClicks(x, g, FirstSubmit(script[AcquireCost(w.durable) + 1].page.elements, ctx.isSubmit).value, ctx.now);
  }

  lemma {:induction false} NothingToFill(w: World, answers: seq<AnswerDraft>, qs: seq<Question>)
    requires forall q :: q in qs ==> q.locator.None?
    ensures FillAll(w, answers, qs) == Done(w, ())
    decreases |qs|
  {
    if qs != [] {
      assert qs[0] in qs;
      NothingToFill(w, answers, qs[1..]);
    }
  }

  /** An answered submit clicks once, and the commit of the result adds no click. */
  lemma SubmitClicks(w: World, a: Attempt, submit: Element, now: int)
    requires Answered(w.script) && |w.script| >= 3
    ensures var io := Submit(w, a, submit, now);
            io.Done? && Clicks(io.world.trace) == Clicks(w.trace) + 1
  {
    var b := a.MarkSubmissionAttempted(now);
    var saved := w.Commit(b, w.tasks);
    assert Clicks(saved.world.trace) == Clicks(w.trace);
    var clicked := saved.world.Act(Clicked(submit.locator, SubmitKey(b.id)));
    assert Clicks(clicked.world.trace) == Clicks(w.trace) + 1;
  }

  /** An attempt the user skipped while its task was still live is driven again and clicks:
      the worker died after committing the pause, and the lease expired. */
  lemma {:induction false} SkippedAttemptStillClicks()
    ensures var reply := Replies(true, 1)[0];
            var expired := Step(Step(FirstPause(), Die), Expire);
            var skipped := Step(expired, Action.Resolve(0, SkipApplication, None, None, 0, [reply]));
            var driven := Step(Step(skipped, Claim), Handle(Env(false), Replies(true, 7)));
            && skipped.durable.state == WorkflowState.Cancelled
            && Clicks(skipped.trace) == 0
            && Clicks(driven.trace) == 1
  {
    FirstPauseStands();
    var reply := Replies(true, 1)[0];
    var paused := FirstPause();
    var expired := Step(Step(paused, Die), Expire);
    assert expired.tasks == [TaskState.Pending] && expired.durable == paused.durable;
    var skipped := Step(expired, Action.Resolve(0, SkipApplication, None, None, 0, [reply]));
    SkipCommits(expired, 0, reply);
    var claimed := Step(skipped, Claim);
    assert claimed.worker.Claimed?;
    OneSubmit();
    ClaimedRunClicks(claimed, Env(false), Replies(true, 7));
  }

  lemma SkipCommits(c: Cell, i: nat, reply: Reply)
    requires i < |c.durable.interventions| && c.durable.interventions[i].IsOpen() && reply.Reply?
    ensures var d := Step(c, Action.Resolve(i, SkipApplication, None, None, 0, [reply]));
            && d.durable == c.durable.ResolveIntervention(i, SkipApplication).Cancelled(0)
            && d.tasks == c.tasks && d.worker == c.worker && Clicks(d.trace) == Clicks(c.trace)
  {
  }

  lemma OneSubmit()
    ensures FileInputs(Form(true).elements) == []
    ensures FirstSubmit(Form(true).elements, Env(false).context.isSubmit).Some?
  {
    assert FileInputs(Form(true).elements[1..]) == [];
  }

  // ----- A form without a submit control -----

  /** A form with no submit control ends the run as CONTINUED: the task succeeds, the row
      stays RUNNING, and if no pause is open nothing will ever drive the attempt again. */
  lemma FormWithoutSubmitStrands(c: Cell, env: RunEnv, script: seq<Reply>)
    requires c.worker.Claimed? && LocalEnv(env) && Answered(script) && c.tasks == [TaskState.Running]
    requires c.durable.submissionAttemptedAt.None? && MayFill(c.durable.mode)
    requires forall k :: 0 <= k < |c.durable.interventions| ==> !c.durable.interventions[k].IsOpen()
    requires |script| == AcquireCost(c.durable) + 3
    requires var page := script[AcquireCost(c.durable) + 1].page;
             NothingToDo(page, env.context) && FirstSubmit(page.elements, env.context.isSubmit).None?
    ensures var d := Step(Step(c, Handle(env, script)), Finish(TaskState.Failed));
            Inert(d) && d.durable.state == WorkflowState.Running
  {
    var w := c.With(script);
    var x, g := LocalPassing(w, env);
    var h := g.RecordCheckpoint(ReviewPageReached);
    assert RunTask(w, env) == x.Commit(h, x.tasks);
    assert h.interventions == w.durable.interventions;
  }

  // ----- Exactly when a click may still come -----

  lemma {:induction false} LookingNeverClicks(t: Trace, u: Trace, c: DriverContext)
    requires OnlyLooks(t, u, c)
    ensures Clicks(u) == Clicks(t)
  {
    if u != t {
      LookingNeverClicks(t, u.past, c);
    }
  }

  lemma BindNeverClicks(w: World, a: Attempt, hosts: Hosts, i: Option<nat>)
    requires i.Some? ==> i.value < |a.interventions|
    ensures var io := BindSession(w, a, hosts, i);
            && Clicks(io.world.trace) == Clicks(w.trace)
            && (io.Done? ==> io.value.0.submissionAttemptedAt == a.submissionAttemptedAt)
  {
    var (host, session) := Target(a, i);
    if IsConnected(hosts, host) {
      var created := w.CreateSession(if Present(session) then session.value else a.id);
      assert Clicks(created.world.trace) == Clicks(w.trace);
    }
  }

  lemma AcquireNeverClicks(w: World, a: Attempt, env: RunEnv)
    ensures var io := Acquire(w, a, env);
            && io.world.trace == w.trace
            && (io.Done? ==> io.value.attempt.submissionAttemptedAt == a.submissionAttemptedAt)
  {
  }

  lemma MarkedStepNeverClicks(w: World, a: Attempt, env: RunEnv)
    requires a.submissionAttemptedAt.Some?
    ensures Clicks(RunStep(w, a, env).world.trace) == Clicks(w.trace)
  {
    if env.driverFound {
      var c := env.context.(mode := a.mode);
      MarkedRunOnlyVerifies(w, a, c);
      LookingNeverClicks(w.trace, RunForm(w, a, c).world.trace, c);
    }
  }

  lemma MarkedTaskNeverClicks(w: World, env: RunEnv)
    requires w.durable.submissionAttemptedAt.Some?
    ensures Clicks(RunTask(w, env).world.trace) == Clicks(w.trace)
  {
    if env.jobFound {
      BindNeverClicks(w, w.durable, env.hosts, None);
      var bound := BindSession(w, w.durable, env.hosts, None);
      if bound.Done? {
        var (a, attached) := bound.value;
        if attached {
          MarkedStepNeverClicks(bound.world, a, env);
        } else {
          AcquireNeverClicks(bound.world, a, env);
          var acquired := Acquire(bound.world, a, env);
          if acquired.Done? && acquired.value.Ready? {
            MarkedStepNeverClicks(acquired.world, acquired.value.attempt, env);
          }
        }
      }
    }
  }

  lemma {:induction false} ResolveNeverClicks(w: World, i: nat, r: Resolution, answer: Option<string>, hosts: Hosts,
      now: int)
    ensures Clicks(AttemptService.Resolve(w, i, r, answer, hosts, now).world.trace) == Clicks(w.trace)
  {
    var a := w.durable;
    if i < |a.interventions| && a.interventions[i].IsOpen() && Resumes(r) {
      var b := TakeAnswer(a, i, r, answer);
      ReclaimNeverClicks(w, b, i, hosts);
      var reclaimed := Reclaim(w, b, i, hosts);
      if reclaimed.Done? {
        assert Clicks(Settle(reclaimed.world, reclaimed.value.0, i, r,
          reclaimed.value.1).world.trace) == Clicks(w.trace);
      }
    }
  }

  lemma ReclaimNeverClicks(w: World, a: Attempt, i: nat, hosts: Hosts)
    requires i < |a.interventions|
    ensures Clicks(Reclaim(w, a, i, hosts).world.trace) == Clicks(w.trace)
  {
    var (host, session) := Target(a, Some(i));
    if a.interventions[i].handoff && IsConnected(hosts, host) {
      var b := a.(host := host, session := session);
      BindNeverClicks(w, b, hosts, Some(i));
      var bound := BindSession(w, b, hosts, Some(i));
      if bound.Done? {
        var asked := bound.world.AskForControl();
        assert Clicks(asked.world.trace) == Clicks(w.trace);
      }
    }
  }

  lemma OpenNeverClicks(w: World, hosts: Hosts)
    ensures Clicks(OpenBrowser(w, hosts).world.trace) == Clicks(w.trace)
  {
    if w.durable.interventions != [] {
      var i := ShownItem(w.durable);
      BindNeverClicks(w, w.durable, hosts, Some(i));
    }
  }

  lemma MarkedActionNeverClicks(c: Cell, action: Action)
    requires c.durable.submissionAttemptedAt.Some?
    ensures Clicks(Step(c, action).trace) == Clicks(c.trace)
  {
    match action
    case Handle(env, script) => MarkedTaskNeverClicks(c.With(script), env);
    case Resolve(i, r, answer, hosts, now, script) => ResolveNeverClicks(c.With(script), i, r, answer, hosts, now);
    case Open(hosts, script) => OpenNeverClicks(c.With(script), hosts);
    case _ =>
  }

  /** After the marker is durable no later history issues a click: a crash between the
      commit and the click means that the click never happens. */
  lemma {:induction false} MarkedNeverClicks(c: Cell, actions: seq<Action>)
    requires Safe(c.With([])) && c.durable.submissionAttemptedAt.Some?
    ensures Clicks(Run(c, actions).trace) == Clicks(c.trace)
  {
    if actions != [] {
      var init := actions[..|actions| - 1];
      MarkedNeverClicks(c, init);
      RunIsSafe(c, init);
      MarkedActionNeverClicks(Run(c, init), actions[|actions| - 1]);
    }
  }

  /** Bring a task that is not over back to where a worker can claim it. */
  lemma {:induction false} Revive(c: Cell, k: nat) returns (action: Action)
    requires c.worker.Idle? && k < |c.tasks| && !Over(c.tasks[k])
    ensures !action.Retry?
    ensures var d := Step(c, action);
            d.worker.Idle? && TaskState.Pending in d.tasks && d.durable == c.durable && d.trace == c.trace
  {
    match c.tasks[k]
    case Pending => action := Die;
    case Running => action := Expire;
      var j := FirstIn(c.tasks, TaskState.Running);
      assert c.tasks[j.value := TaskState.Pending][j.value] == TaskState.Pending;
  }

  lemma {:induction false} RunThree(c: Cell, x: Action, y: Action, z: Action)
    ensures Run(c, [x, y, z]) == Step(Step(Step(c, x), y), z)
  {
    assert [x, y, z][..2] == [x, y] && [x, y][..1] == [x] && [x][..0] == [];
    assert Run(c, [x]) == Step(Run(c, []), x);
    assert Run(c, [x, y]) == Step(Run(c, [x]), y);
  }

  lemma ClaimsPending(c: Cell)
    requires c.worker.Idle? && TaskState.Pending in c.tasks
    ensures var d := Step(c, Claim); d.durable == c.durable && d.trace == c.trace && d.worker.Claimed?
  {
  }

  lemma TaskLeftClicks(c: Cell, k: nat)
    requires Safe(c.With([])) && c.worker.Idle? && k < |c.tasks| && !Over(c.tasks[k])
    requires c.durable.submissionAttemptedAt.None? && c.durable.mode.AutonomousSubmit?
    ensures exists later :: Unaided(later) && Clicks(Run(c, later).trace) > Clicks(c.trace)
  {
    var script := Replies(true, AcquireCost(c.durable) + 6);
    var revive := Revive(c, k);
    var handle := Handle(Env(false), script);
    var later := [revive, Claim, handle];
    assert Unaided(later);
    RunThree(c, revive, Claim, handle);
    OneSubmit();
    ClaimsPending(Step(c, revive));
    ClaimedRunClicks(Step(Step(c, revive), Claim), Env(false), script);
    assert Clicks(Run(c, later).trace) > Clicks(c.trace);
  }

  /** With no pause open and no worker at work, some history of the program still clicks
      exactly when the attempt may submit, has not marked a submit, and has a pending or a
      running task. In particular skipping an attempt is final exactly when it has neither;
      a task that is to be retried does not count, since nothing ever retries it. */
  lemma ClickableIffTaskLeft(c: Cell)
    requires Safe(c.With([])) && c.worker.Idle?
    requires forall k :: 0 <= k < |c.durable.interventions| ==> !c.durable.interventions[k].IsOpen()
    ensures (exists later :: Unaided(later) && Clicks(Run(c, later).trace) > Clicks(c.trace))
            <==> c.durable.submissionAttemptedAt.None? && c.durable.mode.AutonomousSubmit?
                 && exists k :: 0 <= k < |c.tasks| && (c.tasks[k].Pending? || c.tasks[k].Running?)
  {
    if c.durable.submissionAttemptedAt.Some? {
      forall later ensures Clicks(Run(c, later).trace) == Clicks(c.trace) {
        MarkedNeverClicks(c, later);
      }
    } else if !c.durable.mode.AutonomousSubmit? {
      forall later ensures Clicks(Run(c, later).trace) == 0 {
        RunIsSafe(c, later);
      }
    } else if k :| 0 <= k < |c.tasks| && !Over(c.tasks[k]) {
      TaskLeftClicks(c, k);
    } else {
      forall later | Unaided(later) ensures Clicks(Run(c, later).trace) == Clicks(c.trace) {
        InertForever(c, later);
        NoDrivingNoClicks(c.trace, Run(c, later).trace);
      }
    }
  }
}

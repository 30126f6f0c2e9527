/** When a pause really ends, and which attempts nothing will ever drive again. */
module AttemptResults {
  import opened Wrappers
  import opened Execution
  import opened Platform
  import opened Runner
  import opened RunnerProperties
  import opened AttemptService
  import opened AttemptRuns
  import TaskModel

  // ----- A handoff ends only with the browser back in the agent's hands -----

  /** The pause `i` still stands exactly as it did in `w`. */
  ghost predicate StillPaused(w: World, x: World, i: nat) {
    && x.tasks == w.tasks
    && x.durable.state == w.durable.state
    && i < |x.durable.interventions| && x.durable.interventions[i].IsOpen()
  }

  /** The in-memory attempt agrees with the row about pause `i`. */
  predicate SamePause(w: World, a: Attempt, i: nat) {
    && a.state == w.durable.state
    && i < |a.interventions| && a.interventions[i].IsOpen()
    && i < |w.durable.interventions| && w.durable.interventions[i].IsOpen()
  }

  lemma BindKeepsPause(w: World, a: Attempt, hosts: Hosts, i: nat)
    requires SamePause(w, a, i)
    ensures var io := BindSession(w, a, hosts, Some(i));
            && StillPaused(w, io.world, i)
            && (io.Done? ==> SamePause(io.world, io.value.0, i))
  {
    var (host, session) := Target(a, Some(i));
    if IsConnected(hosts, host) && !(Present(session) && session.value in hosts.value[host.value]) {
      var created := w.CreateSession(if Present(session) then session.value else a.id);
      if created.Done? && Present(created.value) {
        AdoptIsLater(a, Some(i), host.value, created.value.value);
      }
    }
  }

  /** The trace ends with a reclaim, its answer, and an ownership reading. */
  ghost predicate EndsAsking(t: Trace, ok: bool, owner: Owner) {
    && t.Then? && t.effect == OwnerRead(owner)
    && t.past.Then? && t.past.effect == ReclaimAnswered(ok)
    && t.past.past.Then? && t.past.past.effect.ReclaimRequested?
  }

  /** The reclaim was accepted and the owner then read as AGENT. */
  ghost predicate EndsReclaimed(t: Trace) {
    EndsAsking(t, true, Agent)
  }

  lemma {:induction false} ReclaimKeepsPause(w: World, a: Attempt, i: nat, hosts: Hosts)
    requires SamePause(w, a, i)
    ensures var io := Reclaim(w, a, i, hosts);
            && StillPaused(w, io.world, i)
            && (io.Done? ==> SamePause(io.world, io.value.0, i))
            && (io.Done? && io.value.1 && a.interventions[i].handoff ==>
                  EndsReclaimed(io.world.trace) && IsConnected(hosts, Target(a, Some(i)).0))
  {
    if a.interventions[i].handoff {
      var (host, session) := Target(a, Some(i));
      if IsConnected(hosts, host) {
        BindKeepsPause(w, a.(host := host, session := session), hosts, i);
      }
    }
  }

  /** Resolving an open intervention with anything but keep, skip or cancel does one of
      two things, even when it crashes half way: it closes the intervention and queues
      the attempt in one commit, or it leaves the pause and the queue as they were. A
      handoff closes only right after a reclaim the host accepted and an ownership
      reading of AGENT, on a connected host. */
  lemma {:induction false} HandoffClosesOnlyAfterReclaim(
      w: World, i: nat, r: Resolution, answer: Option<string>, hosts: Hosts, now: int)
    requires i < |w.durable.interventions| && w.durable.interventions[i].IsOpen() && Resumes(r)
    ensures var io := AttemptService.Resolve(w, i, r, answer, hosts, now);
            var x := io.world;
            && i < |x.durable.interventions|
            && (x.durable.interventions[i].IsOpen() ==> StillPaused(w, x, i))
            && (!x.durable.interventions[i].IsOpen() ==>
                  && x.durable.state == WorkflowState.Pending
                  && x.tasks == Enqueue(w.tasks)
                  && x.trace.Then? && x.trace.effect == Committed(x.durable)
                  && (w.durable.interventions[i].handoff ==>
                        EndsReclaimed(x.trace.past) && IsConnected(hosts, Target(w.durable, Some(i)).0)))
            && (io.Done? ==> (io.value.Queued? <==> !x.durable.interventions[i].IsOpen()))
            && (io.Done? ==> (io.value.Queued? || io.value.StillOpen?))
  {
    var a := TakeAnswer(w.durable, i, r, answer);
    ReclaimKeepsPause(w, a, i, hosts);
    var reclaimed := Reclaim(w, a, i, hosts);
    if reclaimed.Done? {
      SettleDecides(reclaimed.world, reclaimed.value.0, i, r, reclaimed.value.1);
    }
  }

  lemma SettleDecides(w: World, a: Attempt, i: nat, r: Resolution, ours: bool)
    requires SamePause(w, a, i)
    ensures var io := Settle(w, a, i, r, ours);
            var x := io.world;
            && (StillPaused(w, x, i)
                || (ours && x.trace == Then(w.trace, Committed(x.durable)) && x.tasks == Enqueue(w.tasks)
                    && x.durable == a.ResolveIntervention(i, r).(state := WorkflowState.Pending).RecordEvent(Resumed)))
            && (io.Done? ==> io.value == if ours then Queued else StillOpen)
            && (io.Done? && ours ==> !StillPaused(w, x, i))
            && (!StillPaused(w, x, i) <==> ours && !At(w.script, 0).Crash?)
  {
  }

  /** What the environment does at await `k`; past the script the process is dead. */
  function At(script: seq<Reply>, k: nat): Reply {
    if k < |script| then script[k] else Crash
  }

  /** Whether the session a human just released is one the host still holds. */
  predicate Attached(a: Attempt, i: nat, hosts: Hosts)
    requires i < |a.interventions|
  {
    var (host, session) := Target(a, Some(i));
    IsConnected(hosts, host) && Present(session) && session.value in hosts.value[host.value]
  }

  /** How many awaits attaching the session takes: none, or opening one and saving it. */
  function AttachCost(a: Attempt, i: nat, hosts: Hosts): nat
    requires i < |a.interventions|
  {
    if Attached(a, i, hosts) then 0 else 2
  }

  /** The host gives the browser back: it is connected, the session is attached or opened and
      saved, the reclaim is accepted, and the owner then reads as AGENT. */
  predicate GivenBack(w: World, i: nat, hosts: Hosts)
    requires i < |w.durable.interventions|
  {
    var n := AttachCost(w.durable, i, hosts);
    && IsConnected(hosts, Target(w.durable, Some(i)).0)
    && (n == 2 ==> Opened(At(w.script, 0)) && At(w.script, 1).Reply?)
    && At(w.script, n).Reply? && At(w.script, n).ok
    && At(w.script, n + 1).Reply? && At(w.script, n + 1).owner.Agent?
  }

  /** The host opened a session and named it. */
  predicate Opened(r: Reply) {
    r.Reply? && r.ok && Present(r.name)
  }

  lemma {:induction false} ReclaimSucceedsIff(w: World, a: Attempt, i: nat, hosts: Hosts)
    requires i < |a.interventions| == |w.durable.interventions| && a.interventions[i].handoff
    requires Target(a, Some(i)) == Target(w.durable, Some(i))
    ensures var io := Reclaim(w, a, i, hosts);
            && (io.Done? && io.value.1 <==> GivenBack(w, i, hosts))
            && (io.Done? && io.value.1 ==>
                  io.world.script == w.script[AttachCost(w.durable, i, hosts) + 2..])
  {
    var (host, session) := Target(a, Some(i));
    if IsConnected(hosts, host) {
      var b := a.(host := host, session := session);
      var bound := BindSession(w, b, hosts, Some(i));
      BindCosts(w, b, hosts, i);
      if bound.Done? && bound.value.1 {
        TakeBackIff(bound.world, bound.value.0);
      }
    }
  }

  lemma BindCosts(w: World, a: Attempt, hosts: Hosts, i: nat)
    requires i < |a.interventions| && IsConnected(hosts, Target(a, Some(i)).0)
    ensures var io := BindSession(w, a, hosts, Some(i)); var n := AttachCost(a, i, hosts);
            && (io.Done? && io.value.1 <==> (n == 2 ==> Opened(At(w.script, 0)) && At(w.script, 1).Reply?))
            && (io.Done? && io.value.1 ==> n <= |w.script| && io.world.script == w.script[n..])
  {
  }

  lemma TakeBackIff(w: World, a: Attempt)
    ensures var io := TakeBack(w, a); var s := w.script;
            && (io.Done? && io.value.1 <==> At(s, 0).Reply? && At(s, 0).ok && At(s, 1).Reply? && At(s, 1).owner.Agent?)
            && (io.Done? && io.value.1 ==> |s| >= 2 && io.world.script == s[2..])
  {
  }

  /** Exactly when a handoff closes into a queued resume: the host gives the browser back
      and the closing commit takes effect. Nothing else closes it, and a host that is gone,
      refuses, or still reports another owner leaves the pause as it was. */
  lemma {:induction false} HandoffClosesIff(
      w: World, i: nat, r: Resolution, answer: Option<string>, hosts: Hosts, now: int)
    requires i < |w.durable.interventions| && w.durable.interventions[i].IsOpen() && Resumes(r)
    requires w.durable.interventions[i].handoff
    ensures var x := AttemptService.Resolve(w, i, r, answer, hosts, now).world;
            && i < |x.durable.interventions|
            && (!x.durable.interventions[i].IsOpen() <==>
                  GivenBack(w, i, hosts) && !At(w.script, AttachCost(w.durable, i, hosts) + 2).Crash?)
            && (x.durable.interventions[i].IsOpen() ==> StillPaused(w, x, i))
  {
    var a := TakeAnswer(w.durable, i, r, answer);
    HandoffClosesOnlyAfterReclaim(w, i, r, answer, hosts, now);
    ReclaimSucceedsIff(w, a, i, hosts);
    ReclaimKeepsPause(w, a, i, hosts);
    var reclaimed := Reclaim(w, a, i, hosts);
    if reclaimed.Done? {
      SettleDecides(reclaimed.world, reclaimed.value.0, i, r, reclaimed.value.1);
    }
  }

  /** A handoff that is not given back stays open, with the queue untouched. */
  lemma {:induction false} UnreclaimedHandoffStaysOpen(
      w: World, i: nat, r: Resolution, answer: Option<string>, hosts: Hosts, now: int)
    requires i < |w.durable.interventions| && w.durable.interventions[i].IsOpen() && Resumes(r)
    requires w.durable.interventions[i].handoff
    requires var n := AttachCost(w.durable, i, hosts);
             || !IsConnected(hosts, Target(w.durable, Some(i)).0)
             || (At(w.script, n).Reply? && !At(w.script, n).ok)
             || (At(w.script, n + 1).Reply? && !At(w.script, n + 1).owner.Agent?)
    ensures StillPaused(w, AttemptService.Resolve(w, i, r, answer, hosts, now).world, i)
  {
    HandoffClosesIff(w, i, r, answer, hosts, now);
  }

  // ----- When a resume can be claimed -----

  /** A queued resume leaves a task some worker can claim exactly when one was already
      pending or none is running: a running task absorbs the resume. */
  lemma {:induction false} ResumeIsClaimable(
      w: World, i: nat, r: Resolution, answer: Option<string>, hosts: Hosts, now: int)
    requires i < |w.durable.interventions| && w.durable.interventions[i].IsOpen() && Resumes(r)
    requires var io := AttemptService.Resolve(w, i, r, answer, hosts, now); io.Done? && io.value.Queued?
    ensures TaskState.Pending in AttemptService.Resolve(w, i, r, answer, hosts, now).world.tasks
            <==> TaskState.Pending in w.tasks || TaskState.Running !in w.tasks
  {
    HandoffClosesOnlyAfterReclaim(w, i, r, answer, hosts, now);
    EnqueueClaimable(w.tasks);
  }

  lemma EnqueueClaimable(tasks: seq<TaskState>)
    ensures TaskState.Pending in Enqueue(tasks) <==> TaskState.Pending in tasks || TaskState.Running !in tasks
  {
    var r := Enqueue(tasks);
    if r != tasks {
      assert r[|tasks|] == TaskState.Pending;
    }
  }

  // ----- Attempts nothing will drive again -----

  /** Only a pending or running task is ever driven: claims take pending ones, a lapsed lease
      brings a running one back, and nothing in the program revives any other. */
  predicate Over(s: TaskState) {
    !TaskModel.Live(s)
  }

  /** The histories the program itself produces: `Retry` stands for a requeue, and no part
      of the program calls that. */
  predicate Unaided(actions: seq<Action>) {
    forall k :: 0 <= k < |actions| ==> !actions[k].Retry?
  }

  /** No worker, no task the program would drive, and nothing left to resolve. */
  predicate Inert(c: Cell) {
    && c.worker.Idle?
    && (forall k :: 0 <= k < |c.tasks| ==> Over(c.tasks[k]))
    && (forall k :: 0 <= k < |c.durable.interventions| ==> !c.durable.interventions[k].IsOpen())
  }

  /** `u` continues `t` without any driver run. */
  ghost predicate NoDriving(t: Trace, u: Trace) {
    u == t || (u.Then? && (u.effect.Committed? || u.effect.SessionCreated? || u.effect.HandoffRequested?)
               && NoDriving(t, u.past))
  }

  lemma InertBind(w: World, a: Attempt, hosts: Hosts, i: nat)
    requires a == w.durable && i < |a.interventions|
    requires forall k :: 0 <= k < |a.interventions| ==> !a.interventions[k].IsOpen()
    ensures var io := BindSession(w, a, hosts, Some(i));
            && io.world.tasks == w.tasks && NoDriving(w.trace, io.world.trace)
            && io.world.durable.state == a.state
            && forall k :: 0 <= k < |io.world.durable.interventions| ==> !io.world.durable.interventions[k].IsOpen()
  {
    var (host, session) := Target(a, Some(i));
    if IsConnected(hosts, host) && !(Present(session) && session.value in hosts.value[host.value]) {
      var created := w.CreateSession(if Present(session) then session.value else a.id);
      assert NoDriving(w.trace, created.world.trace);
      if created.Done? && Present(created.value) {
        AdoptIsLater(a, Some(i), host.value, created.value.value);
        var saved := created.world.Commit(Adopt(a, Some(i), host.value, created.value.value), w.tasks);
        assert NoDriving(w.trace, saved.world.trace);
      }
    }
  }

  lemma {:induction false} InertOpen(c: Cell, hosts: Hosts, script: seq<Reply>)
    requires Inert(c)
    ensures var w := OpenBrowser(c.With(script), hosts).world;
            Inert(c.After(w)) && NoDriving(c.trace, w.trace)
  {
    var w := c.With(script);
    if w.durable.interventions != [] {
      var i := ShownItem(w.durable);
      InertBind(w, w.durable, hosts, i);
      var bound := BindSession(w, w.durable, hosts, Some(i));
      assert NoDriving(w.trace, bound.world.Act(HandoffRequested).world.trace);
    }
  }

  lemma {:induction false} InertStep(c: Cell, action: Action)
    requires Inert(c) && !action.Retry?
    ensures Inert(Step(c, action)) && NoDriving(c.trace, Step(c, action).trace)
  {
    match action
    case Open(hosts, script) => InertOpen(c, hosts, script);
    case Expire => assert TaskState.Running !in c.tasks;
    case _ =>
  }

  lemma {:induction false} NoDrivingTransitive(t: Trace, u: Trace, v: Trace)
    requires NoDriving(t, u) && NoDriving(u, v)
    ensures NoDriving(t, v)
  {
    if v != u {
      NoDrivingTransitive(t, u, v.past);
    }
  }

  /** An inert attempt stays inert over every history: no driver ever runs on it again. */
  lemma {:induction false} InertForever(c: Cell, actions: seq<Action>)
    requires Inert(c) && Unaided(actions)
    ensures Inert(Run(c, actions)) && NoDriving(c.trace, Run(c, actions).trace)
  {
    if actions != [] {
      var init := actions[..|actions| - 1];
      InertForever(c, init);
      InertStep(Run(c, init), actions[|actions| - 1]);
      NoDrivingTransitive(c.trace, Run(c, init).trace, Run(c, actions).trace);
    }
  }

  lemma {:induction false} NoDrivingNoClicks(t: Trace, u: Trace)
    requires NoDriving(t, u)
    ensures Clicks(u) == Clicks(t)
  {
    if u != t {
      NoDrivingNoClicks(t, u.past);
    }
  }

  /** Cancelling is final when nothing is queued or running and this was the only open
      pause: whatever happens afterwards, no further click is issued. */
  lemma {:induction false} CancelIsFinal(c: Cell, i: nat, r: Resolution, now: int, script: seq<Reply>,
                                         later: seq<Action>)
    requires Unaided(later)
    requires c.worker.Idle? && forall k :: 0 <= k < |c.tasks| ==> Over(c.tasks[k])
    requires i < |c.durable.interventions|
    requires forall k :: 0 <= k < |c.durable.interventions| ==> (c.durable.interventions[k].IsOpen() <==> k == i)
    requires (r.SkipApplication? || r.Cancel?) && script != [] && !script[0].Crash?
    ensures var d := Step(c, Action.Resolve(i, r, None, None, now, script));
            && d.durable.state == WorkflowState.Cancelled
            && Clicks(Run(d, later).trace) == Clicks(c.trace)
  {
    var d := Step(c, Action.Resolve(i, r, None, None, now, script));
    InertForever(d, later);
    NoDrivingNoClicks(d.trace, Run(d, later).trace);
  }
}

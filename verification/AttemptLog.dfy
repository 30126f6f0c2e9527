/** The event log of an attempt agrees with its record, whatever has happened to it. */
module AttemptLog {
  import opened Wrappers
  import opened Execution
  import opened Platform
  import opened Runner
  import RunnerProperties
  import opened AttemptService
  import opened AttemptRuns

  ghost function Count(a: Attempt, kind: EventKind): nat {
    multiset(a.events)[kind]
  }

  /** Every pause, checkpoint and failure on record has its event and every such event its
      entry; a submission is logged once, with its marker; an attempt that was cancelled, or
      completed as submitted, says so. */
  ghost predicate Logged(a: Attempt) {
    && Count(a, InterventionOpened) == |a.interventions|
    && Count(a, CheckpointReached) == |a.checkpoints|
    && Count(a, FailureRecorded) == |a.failures|
    && Count(a, Submitted) == (if a.submissionAttemptedAt.Some? then 1 else 0)
    && (a.state.Cancelled? ==> Count(a, CancelledEvent) > 0)
    && (a.state.Completed? && a.submissionAttemptedAt.Some? ==> Count(a, CompletedEvent) > 0)
  }

  // ----- The entries -----

  lemma EventLogged(a: Attempt, kind: EventKind)
    requires Logged(a) && kind !in {InterventionOpened, CheckpointReached, FailureRecorded, Submitted}
    ensures Logged(a.RecordEvent(kind))
  {
  }

  lemma CheckpointLogged(a: Attempt, kind: Checkpoint)
    requires Logged(a)
    ensures Logged(a.RecordCheckpoint(kind))
  {
  }

  lemma InterventionLogged(a: Attempt, reason: InterventionReason, handoff: bool, key: Option<string>)
    requires Logged(a)
    ensures Logged(a.OpenIntervention(reason, handoff, key))
  {
  }

  lemma MarkLogged(a: Attempt, now: int)
    requires Logged(a) && !a.state.Completed?
    ensures Logged(a.MarkSubmissionAttempted(now))
  {
  }

  lemma FailLogged(a: Attempt, code: string, now: int)
    requires Logged(a)
    ensures Logged(a.Fail(code, now))
  {
  }

  lemma CompleteLogged(a: Attempt, e: Evidence, now: int)
    requires Logged(a)
    ensures Logged(a.Complete(e, now))
  {
    assert multiset([CheckpointReached, CompletedEvent]) == multiset{CheckpointReached, CompletedEvent};
  }

  lemma CancelLogged(a: Attempt, i: nat, r: Resolution, now: int)
    requires Logged(a) && i < |a.interventions|
    ensures Logged(a.ResolveIntervention(i, r).Cancelled(now))
  {
  }

  /** The fields the log speaks of are the same. */
  predicate Alike(a: Attempt, b: Attempt) {
    && b.events == a.events && |b.interventions| == |a.interventions| && b.checkpoints == a.checkpoints
    && b.failures == a.failures && b.submissionAttemptedAt == a.submissionAttemptedAt && b.state == a.state
  }

  lemma AlikeLogged(a: Attempt, b: Attempt)
    requires Logged(a) && Alike(a, b)
    ensures Logged(b)
  {
  }

  // ----- A run -----

  lemma {:induction false} QuestionsLogged(a: Attempt, qs: seq<Question>, c: DriverContext)
    requires Logged(a)
    ensures Logged(AdvanceQuestions(a, qs, c).0)
    decreases |qs|
  {
    if qs != [] {
      var m := TakeQuestion(a, qs[0], c);
      InterventionLogged(m, if qs[0].legal then LegalAttestation else AmbiguousQuestion, false, Some(qs[0].key));
      if !c.decide(qs[0]).Stops() {
        QuestionsLogged(m, qs[1..], c);
      }
    }
  }

  lemma {:induction false} UploadsLogged(w: World, a: Attempt, inputs: seq<Element>, path: string)
    requires Logged(a) && Logged(w.durable)
    ensures var io := UploadAll(w, a, inputs, path);
            Logged(io.world.durable) && (io.Done? ==> Logged(io.value) && io.value.state == a.state)
    decreases |inputs|
  {
    if inputs != [] {
      var io := w.Act(Uploaded(inputs[0].locator, path));
      if io.Done? {
        UploadsLogged(io.world, a.(uploads := a.uploads + [Upload(inputs[0].locator, path, io.value)]), inputs[1..],
                      path);
      }
    }
  }

  lemma {:induction false} FillsLogged(w: World, answers: seq<AnswerDraft>, qs: seq<Question>)
    ensures FillAll(w, answers, qs).world.durable == w.durable
    decreases |qs|
  {
    if qs != [] {
      var draft := ReadyAnswer(answers, qs[0].key);
      if Present(draft) && Present(qs[0].locator) {
        var io := w.Act(Filled(qs[0].locator.value, draft.value));
        if io.Done? {
          FillsLogged(io.world, answers, qs[1..]);
        }
      } else {
        FillsLogged(w, answers, qs[1..]);
      }
    }
  }

  lemma EvidenceLogged(a: Attempt, e: Evidence, now: int)
    requires Logged(a)
    ensures Logged(HandleEvidence(a, e, now).0)
  {
    CompleteLogged(a.(evidence := e), e, now);
    InterventionLogged(a.(evidence := e), UserReview, true, None);
  }

  lemma ClickedLogged(m: Attempt, page: Page, now: int)
    requires Logged(m)
    ensures var s := m.RecordObservation(Summary(page));
            Logged(HandleEvidence(s, VerifySubmission(page, now), now).0)
            && Logged(s.Fail("application.submit_failed", now))
  {
    var s := m.RecordObservation(Summary(page));
    AlikeLogged(m, s);
    EvidenceLogged(s, VerifySubmission(page, now), now);
    FailLogged(s, "application.submit_failed", now);
  }

  lemma SubmitLogged(w: World, a: Attempt, submit: Element, now: int)
    requires Logged(a) && Logged(w.durable) && a.state.Running?
    ensures var io := Submit(w, a, submit, now);
            Logged(io.world.durable) && (io.Done? ==> Logged(io.value.0))
  {
    var m := a.MarkSubmissionAttempted(now);
    MarkLogged(a, now);
    var saved := w.Commit(m, w.tasks);
    CommitLogged(w, m, w.tasks);
    if saved.Done? {
      var clicked := saved.world.Act(Clicked(submit.locator, SubmitKey(m.id)));
      if clicked.Done? {
        var seen := clicked.world.ObservePage();
        if seen.Done? {
          ClickedLogged(m, seen.value, now);
        }
      }
    }
  }

  lemma DecidedLogged(w: World, a: Attempt, page: Page, c: DriverContext)
    requires Logged(a) && Logged(w.durable) && a.state.Running? && a.submissionAttemptedAt.None?
    ensures var io := Decided(w, a, page, c);
            Logged(io.world.durable) && (io.Done? ==> Logged(io.value.0))
  {
    CheckpointLogged(a, ReviewPageReached);
    var submit := FirstSubmit(page.elements, c.isSubmit);
    if submit.Some? {
      SubmitLogged(w, a, submit.value, c.now);
    }
  }

  lemma AttachLogged(w: World, a: Attempt, page: Page, c: DriverContext)
    requires Logged(a) && Logged(w.durable)
    ensures var io := UploadDocuments(w, a, page, c);
            && Logged(io.world.durable)
            && (io.Done? ==> Logged(io.value) && io.value.state == a.state
                             && io.value.submissionAttemptedAt == a.submissionAttemptedAt)
  {
    if c.resume.Some? {
      var inputs := FileInputs(page.elements);
      UploadsLogged(w, a, inputs, c.resume.value);
      RunnerProperties.UploadingIsQuiet(w, a, inputs, c.resume.value);
      var sent := UploadAll(w, a, inputs, c.resume.value);
      if sent.Done? {
        CheckpointLogged(sent.value, DocumentsUploaded);
      }
    }
  }

  lemma FormLogged(w: World, a: Attempt, page: Page, c: DriverContext)
    requires Logged(a) && Logged(w.durable) && a.state.Running? && a.submissionAttemptedAt.None?
    ensures var io := FillAndSubmit(w, a, page, c);
            Logged(io.world.durable) && (io.Done? ==> Logged(io.value.0))
  {
    FillsLogged(w, a.answers, page.questions);
    var filled := FillAll(w, a.answers, page.questions);
    if MayFill(c.mode) && filled.Done? {
      var b := a.RecordCheckpoint(QuestionnaireComplete);
      CheckpointLogged(a, QuestionnaireComplete);
      AttachLogged(filled.world, b, page, c);
      var attached := if FileInputs(page.elements) == [] then Done(filled.world, b)
                      else UploadDocuments(filled.world, b, page, c);
      if attached.Done? {
        DecidedLogged(attached.world, attached.value, page, c);
      }
    }
  }

  lemma ArrivedLogged(a: Attempt, page: Page)
    requires Logged(a)
    ensures var o := a.RecordObservation(Summary(page)).RecordCheckpoint(ApplicationOpened);
            var reason := ConditionReason(page.condition);
            Logged(o) && Logged(o.OpenIntervention(reason, HandoffByDefault(reason), None))
  {
    var seen := a.RecordObservation(Summary(page));
    var reason := ConditionReason(page.condition);
    AlikeLogged(a, seen);
    CheckpointLogged(seen, ApplicationOpened);
    InterventionLogged(seen.RecordCheckpoint(ApplicationOpened), reason, HandoffByDefault(reason), None);
  }

  lemma {:induction false} OpenLogged(w: World, a: Attempt, c: DriverContext)
    requires Logged(a) && Logged(w.durable) && a.state.Running? && a.submissionAttemptedAt.None?
    ensures var io := OpenForm(w, a, c);
            Logged(io.world.durable) && (io.Done? ==> Logged(io.value.0))
  {
    var arrived := w.Navigate(c.applyUrl);
    if arrived.Done? {
      var page := arrived.value;
      var o := a.RecordObservation(Summary(page)).RecordCheckpoint(ApplicationOpened);
      ArrivedLogged(a, page);
      QuestionsLogged(o, page.questions, c);
      RunnerProperties.QuestionsKeepSubmission(o, page.questions, c);
      var (b, paused) := AdvanceQuestions(o, page.questions, c);
      if !paused {
        FormLogged(arrived.world, b, page, c);
      }
    }
  }

  lemma VerifyLogged(w: World, a: Attempt, now: int)
    requires Logged(a) && Logged(w.durable)
    ensures var io := Verify(w, a, now);
            Logged(io.world.durable) && (io.Done? ==> Logged(io.value.0))
  {
    var seen := w.ObservePage();
    if seen.Done? {
      EvidenceLogged(a.RecordObservation(Summary(seen.value)), VerifySubmission(seen.value, now), now);
    }
  }

  lemma {:induction false} RunLogged(w: World, a: Attempt, c: DriverContext)
    requires Logged(a) && Logged(w.durable)
    ensures var io := RunForm(w, a, c);
            Logged(io.world.durable) && (io.Done? ==> Logged(io.value.0))
  {
    var owned := w.Emit(Began(c)).ReadOwner();
    InterventionLogged(a, UnknownInteraction, true, None);
    if owned.Done? && owned.value.Agent? {
      var r := a.(state := Running);
      EventLogged(r, Started);
      var b := if r.events == [] then r.RecordEvent(Started) else r;
      if b.submissionAttemptedAt.Some? {
        VerifyLogged(owned.world, b, c.now);
      } else {
        OpenLogged(owned.world, b, c);
      }
    }
  }

  // ----- The service -----

  lemma CommitLogged(w: World, a: Attempt, queue: seq<TaskState>)
    requires Logged(a) && Logged(w.durable)
    ensures Logged(w.Commit(a, queue).world.durable)
  {
  }

  lemma AdoptLogged(a: Attempt, i: Option<nat>, host: string, session: string)
    requires (i.Some? ==> i.value < |a.interventions|) && Logged(a)
    ensures Logged(Adopt(a, i, host, session))
  {
    AlikeLogged(a, Adopt(a, i, host, session));
  }

  lemma OpenSessionLogged(w: World, a: Attempt, i: Option<nat>, host: string, name: string)
    requires i.Some? ==> i.value < |a.interventions|
    requires Logged(a) && Logged(w.durable)
    ensures var io := OpenSession(w, a, i, host, name);
            Logged(io.world.durable) && (io.Done? ==> Logged(io.value.0))
  {
    var created := w.CreateSession(name);
    assert created.world.durable == w.durable;
    if created.Done? && Present(created.value) {
      AdoptLogged(a, i, host, created.value.value);
      CommitLogged(created.world, Adopt(a, i, host, created.value.value), w.tasks);
    }
  }

  lemma BindLogged(w: World, a: Attempt, hosts: Hosts, i: Option<nat>)
    requires i.Some? ==> i.value < |a.interventions|
    requires Logged(a) && Logged(w.durable)
    ensures var io := BindSession(w, a, hosts, i);
            Logged(io.world.durable) && (io.Done? ==> Logged(io.value.0))
  {
    var (host, session) := Target(a, i);
    if IsConnected(hosts, host) {
      OpenSessionLogged(w, a, i, host.value, if Present(session) then session.value else a.id);
    }
  }

  lemma SessionLogged(a: Attempt, handoff: bool)
    requires Logged(a)
    ensures Logged(PauseForBrowser(a, handoff).attempt) && Logged(a.(session := Some(a.id)))
  {
    InterventionLogged(a, UserReview, handoff, None);
    AlikeLogged(a, a.(session := Some(a.id)));
  }

  lemma AcquireLogged(w: World, a: Attempt, env: RunEnv)
    requires Logged(a) && Logged(w.durable)
    ensures var io := Acquire(w, a, env);
            io.world.durable == w.durable && (io.Done? ==> Logged(io.value.attempt))
  {
    SessionLogged(a, false);
    SessionLogged(a, env.needsHandoff);
    if a.backend.None? && w.Ask().Done? && w.Ask().value.Some? {
      SelectedLogged(a, w.Ask().value, env.needsHandoff);
    }
  }

  lemma SelectedLogged(a: Attempt, backend: Option<string>, handoff: bool)
    requires Logged(a)
    ensures var b := a.(backend := backend).RecordEvent(BrowserSelected);
            Logged(PauseForBrowser(b, handoff).attempt) && Logged(b.(session := Some(b.id)))
  {
    var c := a.(backend := backend);
    AlikeLogged(a, c);
    EventLogged(c, BrowserSelected);
    SessionLogged(c.RecordEvent(BrowserSelected), handoff);
  }

  lemma {:induction false} StepLogged(w: World, a: Attempt, env: RunEnv)
    requires Logged(a) && Logged(w.durable)
    ensures Logged(RunStep(w, a, env).world.durable)
  {
    if env.driverFound {
      var c := env.context.(mode := a.mode);
      RunLogged(w, a, c);
      var ran := RunForm(w, a, c);
      if ran.Done? {
        var (b, kind) := ran.value;
        CommitLogged(ran.world, if kind.Waiting? then b.(state := WaitingForHuman) else b, ran.world.tasks);
      }
    }
  }

  lemma {:induction false} TaskLogged(w: World, env: RunEnv)
    requires Logged(w.durable)
    ensures Logged(RunTask(w, env).world.durable)
  {
    var a := w.durable;
    BindLogged(w, a, env.hosts, None);
    var bound := BindSession(w, a, env.hosts, None);
    if env.jobFound && bound.Done? {
      AcquireLogged(bound.world, bound.value.0, env);
      var acquired := if bound.value.1 then Done(bound.world, Ready(bound.value.0))
                      else Acquire(bound.world, bound.value.0, env);
      if acquired.Done? {
        if acquired.value.Ready? {
          StepLogged(acquired.world, acquired.value.attempt, env);
        } else {
          CommitLogged(acquired.world, acquired.value.attempt, acquired.world.tasks);
        }
      }
    }
  }

  lemma TakeBackLogged(w: World, a: Attempt)
    requires Logged(a)
    ensures var io := TakeBack(w, a); io.world.durable == w.durable && (io.Done? ==> Logged(io.value.0))
  {
    EventLogged(a, ReclaimFailed);
  }

  lemma {:induction false} ReclaimLogged(w: World, a: Attempt, i: nat, hosts: Hosts)
    requires i < |a.interventions| && Logged(a) && Logged(w.durable)
    ensures var io := Reclaim(w, a, i, hosts);
            Logged(io.world.durable) && (io.Done? ==> Logged(io.value.0))
  {
    EventLogged(a, ReclaimFailed);
    if a.interventions[i].handoff {
      var (host, session) := Target(a, Some(i));
      var b := a.(host := host, session := session);
      AlikeLogged(a, b);
      BindLogged(w, b, hosts, Some(i));
      var bound := BindSession(w, b, hosts, Some(i));
      if bound.Done? {
        EventLogged(bound.value.0, ReclaimFailed);
        TakeBackLogged(bound.world, bound.value.0);
      }
    }
  }

  lemma {:induction false} ResumeLogged(w: World, a: Attempt, i: nat, r: Resolution, answer: Option<string>,
                                        hosts: Hosts)
    requires i < |a.interventions| && Logged(a) && Logged(w.durable)
    ensures Logged(Resume(w, a, i, r, answer, hosts).world.durable)
  {
    var b := TakeAnswer(a, i, r, answer);
    ReclaimLogged(w, b, i, hosts);
    var reclaimed := Reclaim(w, b, i, hosts);
    if reclaimed.Done? {
      var (d, ours) := reclaimed.value;
      var e := d.ResolveIntervention(i, r).(state := WorkflowState.Pending);
      EventLogged(e, Resumed);
      CommitLogged(reclaimed.world, d, reclaimed.world.tasks);
      CommitLogged(reclaimed.world, e.RecordEvent(Resumed), Enqueue(reclaimed.world.tasks));
    }
  }

  lemma {:induction false} ResolveLogged(w: World, i: nat, r: Resolution, answer: Option<string>, hosts: Hosts,
                                         now: int)
    requires Logged(w.durable)
    ensures Logged(AttemptService.Resolve(w, i, r, answer, hosts, now).world.durable)
  {
    var a := w.durable;
    if i < |a.interventions| {
      EventLogged(a, ControlKept);
      CancelLogged(a, i, r, now);
      if a.interventions[i].IsOpen() && Resumes(r) {
        ResumeLogged(w, a, i, r, answer, hosts);
      }
    }
  }

  lemma {:induction false} ActionLogged(c: Cell, action: Action)
    requires Logged(c.durable)
    ensures Logged(AttemptRuns.Step(c, action).durable)
  {
    match action
    case Handle(env, script) => TaskLogged(c.With(script), env);
    case Resolve(i, r, answer, hosts, now, script) => ResolveLogged(c.With(script), i, r, answer, hosts, now);
    case Open(hosts, script) =>
      if c.durable.interventions != [] {
        BindLogged(c.With(script), c.durable, hosts, Some(ShownItem(c.durable)));
      }
    case _ =>
  }

  /** A new attempt is pending with nothing on record; from then on, over every history, its
      event log agrees with its record. */
  lemma {:induction false} LogAgrees(id: string, mode: ExecutionMode, host: Option<string>, actions: seq<Action>)
    ensures Logged(Run(Start(id, mode, host), actions).durable)
    ensures actions == [] ==> Run(Start(id, mode, host), actions).durable.state == WorkflowState.Pending
  {
    if actions != [] {
      LogAgrees(id, mode, host, actions[..|actions| - 1]);
      ActionLogged(Run(Start(id, mode, host), actions[..|actions| - 1]), actions[|actions| - 1]);
    }
  }
}

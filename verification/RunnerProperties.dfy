/** What every run of the form flow keeps, wherever it stops. */
module RunnerProperties {
  import opened Wrappers
  import opened Execution
  import opened Platform
  import opened Runner

  /** What a row may say about submission. */
  predicate RowOk(a: Attempt) {
    && (a.submissionAttemptedAt.Some? ==> a.mode.AutonomousSubmit?)
    && (a.state.Completed? && a.mode.AutonomousSubmit? ==> Completes(a.evidence.certainty))
    && |a.observations| <= MAX_OBSERVATIONS
  }

  /** `b` is a later value of the attempt `a`: the marker is never cleared or moved,
      the event log only grows, and interventions are neither lost nor reopened. */
  ghost predicate Later(a: Attempt, b: Attempt) {
    && b.id == a.id
    && b.mode == a.mode
    && (a.submissionAttemptedAt.Some? ==> b.submissionAttemptedAt == a.submissionAttemptedAt)
    && a.events <= b.events
    && |a.interventions| <= |b.interventions|
    && (forall i :: 0 <= i < |a.interventions| && !a.interventions[i].IsOpen() ==> !b.interventions[i].IsOpen())
  }

  /** The safety property of a world: clicks are permitted, there is at most one, and
      there is none without the durable marker. */
  ghost predicate Safe(w: World) {
    && Guarded(w.trace)
    && Clicks(w.trace) <= 1
    && (Clicks(w.trace) > 0 ==> w.durable.submissionAttemptedAt.Some?)
    && RowOk(w.durable)
  }

  /** The in-memory attempt is a later value of the row and agrees with it on the marker. */
  ghost predicate Tracks(w: World, a: Attempt) {
    && Later(w.durable, a)
    && a.submissionAttemptedAt == w.durable.submissionAttemptedAt
    && RowOk(a)
  }

  /** The outcome a run reports and the workflow state it leaves in memory agree. */
  predicate OutcomeOk(a: Attempt, k: OutcomeKind) {
    match k
    case Continued => a.state.Running?
    case Waiting => a.state.WaitingForHuman?
    case CompletedRun => a.state.Completed?
    case FailedRun => a.state.Failed?
  }

  /** `w'` continues `w` without clicking or writing, and the run still knows what it knew. */
  ghost predicate Quiet(w: World, w': World) {
    && Clicks(w'.trace) == Clicks(w.trace)
    && View(w'.trace) == View(w.trace)
    && (Guarded(w.trace) && Touchable(View(w.trace)) ==> Guarded(w'.trace))
    && w'.durable == w.durable
    && w'.tasks == w.tasks
  }

  /** The fields that decide whether a click may happen are untouched. */
  predicate SameSubmission(a: Attempt, b: Attempt) {
    && b.id == a.id && b.mode == a.mode && b.state == a.state
    && b.submissionAttemptedAt == a.submissionAttemptedAt
    && b.evidence == a.evidence && b.interventions == a.interventions
    && b.observations == a.observations
    && a.events <= b.events
  }

  lemma {:induction false} FillingIsQuiet(w: World, answers: seq<AnswerDraft>, qs: seq<Question>)
    ensures Quiet(w, FillAll(w, answers, qs).world)
    decreases |qs|
  {
    if qs != [] {
      var draft := ReadyAnswer(answers, qs[0].key);
      if Present(draft) && Present(qs[0].locator) {
        var io := w.Act(Filled(qs[0].locator.value, draft.value));
        if io.Done? {
          FillingIsQuiet(io.world, answers, qs[1..]);
        }
      } else {
        FillingIsQuiet(w, answers, qs[1..]);
      }
    }
  }

  lemma {:induction false} UploadingIsQuiet(w: World, a: Attempt, inputs: seq<Element>, path: string)
    ensures var io := UploadAll(w, a, inputs, path);
            Quiet(w, io.world) && (io.Done? ==> SameSubmission(a, io.value))
    decreases |inputs|
  {
    if inputs != [] {
      var io := w.Act(Uploaded(inputs[0].locator, path));
      if io.Done? {
        var b := a.(uploads := a.uploads + [Upload(inputs[0].locator, path, io.value)]);
        UploadingIsQuiet(io.world, b, inputs[1..], path);
      }
    }
  }

  lemma AttachingIsQuiet(w: World, a: Attempt, p: Page, c: DriverContext)
    ensures var io := UploadDocuments(w, a, p, c);
            Quiet(w, io.world) && (io.Done? ==> SameSubmission(a, io.value))
  {
    if c.resume.Some? {
      UploadingIsQuiet(w, a, FileInputs(p.elements), c.resume.value);
    }
  }

  lemma {:induction false} QuestionsKeepSubmission(a: Attempt, qs: seq<Question>, c: DriverContext)
    ensures var (b, paused) := AdvanceQuestions(a, qs, c);
            && b.id == a.id && b.mode == a.mode
            && b.submissionAttemptedAt == a.submissionAttemptedAt
            && b.observations == a.observations
            && a.events <= b.events
            && a.interventions <= b.interventions
            && if paused then b.state.WaitingForHuman? && PausedOn(b, qs, c)
               else b.state == a.state && b.interventions == a.interventions
    decreases |qs|
  {
    if qs != [] && !c.decide(qs[0]).Stops() {
      QuestionsKeepSubmission(TakeQuestion(a, qs[0], c), qs[1..], c);
    }
  }

  /** The last intervention asks the first stopping question of the page. */
  ghost predicate PausedOn(b: Attempt, qs: seq<Question>, c: DriverContext) {
    exists i :: 0 <= i < |qs| && c.decide(qs[i]).Stops()
                && (forall k :: 0 <= k < i ==> !c.decide(qs[k]).Stops())
                && b.interventions != []
                && b.interventions[|b.interventions| - 1].questionKey == Some(qs[i].key)
                && b.interventions[|b.interventions| - 1].IsOpen()
                && !b.interventions[|b.interventions| - 1].handoff
  }

  /** Evidence closes an attempt exactly when it confirms; otherwise a human reviews it. */
  lemma EvidenceDecides(a: Attempt, e: Evidence, now: int)
    requires RowOk(a)
    ensures var (b, k) := HandleEvidence(a, e, now);
            && RowOk(b) && Later(a, b) && b.submissionAttemptedAt == a.submissionAttemptedAt
            && b.evidence == e
            && (k.CompletedRun? <==> Completes(e.certainty))
            && (k.CompletedRun? <==> b.state.Completed?)
            && (k.Waiting? <==> b.PendingIntervention().Some? && b.state.WaitingForHuman?)
  {
    var (b, k) := HandleEvidence(a, e, now);
    if k.Waiting? {
      assert b.interventions[|b.interventions| - 1].IsOpen();
    }
  }

  /** What a run must have established before it may click `submit`. */
  ghost predicate Earned(w: World, submit: Element) {
    && var v := View(w.trace);
    && v.RunView? && v.owner == Some(Agent) && v.page.Some? && v.context.mode.AutonomousSubmit?
    && !NeedsHandoff(v.page.value.condition) && Unpaused(v.page.value, v.context)
    && FirstSubmit(v.page.value.elements, v.context.isSubmit) == Some(submit)
  }

  /** Committing the marker and then clicking: the one place a click comes from. */
  lemma MarkThenClick(w: World, b: Attempt, submit: Element)
    requires Safe(w) && Later(w.durable, b) && RowOk(b) && Earned(w, submit)
    requires w.durable.submissionAttemptedAt.None? && b.submissionAttemptedAt.Some?
    ensures var saved := w.Commit(b, w.tasks);
            && Safe(saved.world) && Later(w.durable, saved.world.durable) && saved.world.tasks == w.tasks
            && (saved.Done? ==>
                  var clicked := saved.world.Act(Clicked(submit.locator, SubmitKey(b.id)));
                  && Safe(clicked.world) && clicked.world.durable == b && clicked.world.tasks == w.tasks)
  {
    var saved := w.Commit(b, w.tasks);
    if saved.Done? {
      assert View(saved.world.trace) == View(w.trace);
      assert Permitted(saved.world.trace, Clicked(submit.locator, SubmitKey(b.id)));
    }
  }

  /** The step from the decision to click onwards is safe when the run has earned the click. */
  lemma SubmitIsSafe(w: World, a: Attempt, submit: Element, now: int)
    requires Safe(w) && Tracks(w, a) && Earned(w, submit)
    requires a.submissionAttemptedAt.None? && a.mode.AutonomousSubmit?
    requires a.state.Running?
    ensures var io := Submit(w, a, submit, now);
            && Safe(io.world) && Later(w.durable, io.world.durable) && io.world.tasks == w.tasks
            && (io.Done? ==> Tracks(io.world, io.value.0) && OutcomeOk(io.value.0, io.value.1))
  {
    var b := a.MarkSubmissionAttempted(now);
    MarkThenClick(w, b, submit);
    var saved := w.Commit(b, w.tasks);
    if saved.Done? {
      var clicked := saved.world.Act(Clicked(submit.locator, SubmitKey(b.id)));
      if clicked.Done? {
        AfterClick(clicked.world, b, clicked.value, now);
      }
    }
  }

  lemma AfterClick(w: World, b: Attempt, ok: bool, now: int)
    requires Safe(w) && w.durable == b && b.submissionAttemptedAt.Some?
    ensures var seen := w.ObservePage();
            && Safe(seen.world) && seen.world.durable == b && seen.world.tasks == w.tasks
            && (seen.Done? ==>
                  var d := b.RecordObservation(Summary(seen.value));
                  var (e, k) := if ok then HandleEvidence(d, VerifySubmission(seen.value, now), now)
                                else (d.Fail("application.submit_failed", now), FailedRun);
                  Tracks(seen.world, e) && OutcomeOk(e, k))
  {
    var seen := w.ObservePage();
    if seen.Done? {
      var d := b.RecordObservation(Summary(seen.value));
      EvidenceDecides(d, VerifySubmission(seen.value, now), now);
    }
  }

  lemma FillAndSubmitIsSafe(w: World, a: Attempt, page: Page, c: DriverContext)
    requires Safe(w) && Tracks(w, a) && a.submissionAttemptedAt.None? && a.mode == c.mode
    requires a.state.Running?
    requires View(w.trace) == RunView(c, Some(Agent), Some(page))
    requires !NeedsHandoff(page.condition) && Unpaused(page, c)
    ensures var io := FillAndSubmit(w, a, page, c);
            && Safe(io.world) && Later(w.durable, io.world.durable) && io.world.tasks == w.tasks
            && (io.Done? ==> Tracks(io.world, io.value.0) && OutcomeOk(io.value.0, io.value.1))
  {
    if MayFill(c.mode) {
      FillingIsQuiet(w, a.answers, page.questions);
      var filled := FillAll(w, a.answers, page.questions);
      if filled.Done? {
        var b := a.RecordCheckpoint(QuestionnaireComplete);
        AttachingIsQuiet(filled.world, b, page, c);
        var attached := if FileInputs(page.elements) == [] then Done(filled.world, b)
                        else UploadDocuments(filled.world, b, page, c);
        if attached.Done? {
          var submit := FirstSubmit(page.elements, c.isSubmit);
          if submit.Some? && MaySubmit(c.mode) {
            SubmitIsSafe(attached.world, attached.value, submit.value, c.now);
          }
        }
      }
    }
  }

  lemma OpenFormIsSafe(w: World, a: Attempt, c: DriverContext)
    requires Safe(w) && Tracks(w, a) && a.submissionAttemptedAt.None? && a.mode == c.mode
    requires a.state.Running?
    requires View(w.trace) == RunView(c, Some(Agent), None)
    ensures var io := OpenForm(w, a, c);
            && Safe(io.world) && Later(w.durable, io.world.durable) && io.world.tasks == w.tasks
            && (io.Done? ==> Tracks(io.world, io.value.0) && OutcomeOk(io.value.0, io.value.1))
  {
    var arrived := w.Navigate(c.applyUrl);
    assert Safe(w.Advance().Emit(Navigated(c.applyUrl)));
    assert Safe(arrived.world) && arrived.world.durable == w.durable;
    if arrived.Done? {
      var page := arrived.value;
      var b := a.RecordObservation(Summary(page)).RecordCheckpoint(ApplicationOpened);
      assert Tracks(arrived.world, b);
      if !NeedsHandoff(page.condition) {
        QuestionsKeepSubmission(b, page.questions, c);
        var (d, paused) := AdvanceQuestions(b, page.questions, c);
        assert Tracks(arrived.world, d);
        if !paused {
          FillAndSubmitIsSafe(arrived.world, d, page, c);
        }
      }
    }
  }

  lemma VerifyIsSafe(w: World, a: Attempt, now: int)
    requires Safe(w) && Tracks(w, a)
    ensures var io := Verify(w, a, now);
            && Safe(io.world) && io.world.durable == w.durable && io.world.tasks == w.tasks
            && (io.Done? ==> Tracks(io.world, io.value.0) && OutcomeOk(io.value.0, io.value.1))
  {
    var seen := w.ObservePage();
    if seen.Done? {
      var d := a.RecordObservation(Summary(seen.value));
      EvidenceDecides(d, VerifySubmission(seen.value, now), now);
    }
  }

  /** The form flow, stopped at any await or run to its end, keeps the world safe, never
      loses the marker, and leaves the queue alone. */
  lemma RunFormIsSafe(w: World, a: Attempt, c: DriverContext)
    requires Safe(w) && Tracks(w, a) && a.mode == c.mode
    ensures var io := RunForm(w, a, c);
            && Safe(io.world) && Later(w.durable, io.world.durable) && io.world.tasks == w.tasks
            && (io.Done? ==> Tracks(io.world, io.value.0) && OutcomeOk(io.value.0, io.value.1))
  {
    var started := w.Emit(Began(c));
    assert Safe(started);
    var owned := started.ReadOwner();
    assert Safe(owned.world) && owned.world.durable == w.durable;
    if owned.Done? && owned.value.Agent? {
      var r := a.(state := Running);
      var b := if r.events == [] then r.RecordEvent(Started) else r;
      assert Tracks(owned.world, b);
      if b.submissionAttemptedAt.Some? {
        VerifyIsSafe(owned.world, b, c.now);
      } else {
        OpenFormIsSafe(owned.world, b, c);
      }
    }
  }

  /** `u` continues `t` by starting a run in context `c` and looking at ownership and the page. */
  ghost predicate OnlyLooks(t: Trace, u: Trace, c: DriverContext) {
    u == t
    || (u.Then? && (u.effect == Began(c) || u.effect.OwnerRead? || u.effect.PageRead?) && OnlyLooks(t, u.past, c))
  }

  /** Once the marker is set a run may only look: it reads ownership and the page, and
      writes, navigates, fills and clicks nothing. */
  lemma {:induction false} MarkedRunOnlyVerifies(w: World, a: Attempt, c: DriverContext)
    requires a.submissionAttemptedAt.Some?
    ensures var io := RunForm(w, a, c);
            io.world.durable == w.durable && io.world.tasks == w.tasks && OnlyLooks(w.trace, io.world.trace, c)
  {
    var started := w.Emit(Began(c));
    assert OnlyLooks(w.trace, started.trace, c);
    var owned := started.ReadOwner();
    assert OnlyLooks(w.trace, owned.world.trace, c);
    if owned.Done? {
      assert OnlyLooks(w.trace, owned.world.ObservePage().world.trace, c);
    }
  }
}

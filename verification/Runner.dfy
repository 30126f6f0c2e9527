/** The shared form flow: policy, handoff, checkpoints, the submit click and its evidence. */
module Runner {
  import opened Wrappers
  import opened Execution
  import opened Platform
  import Text

  datatype OutcomeKind = Continued | Waiting | CompletedRun | FailedRun

  // ----- Judging a page -----

  const CONFIRMED_MARKERS := ["application submitted", "thank you for applying", "we received your"]
  const LIKELY_MARKERS := ["thank you", "application received", "successfully submitted"]

  predicate AnyMarker(text: string, markers: seq<string>) {
    exists i :: 0 <= i < |markers| && Text.Contains(text, markers[i])
  }

  function PageText(p: Page): string {
    if p.text.Some? then p.text.value else ""
  }

  /** A confirmation in the page's words, or in its address. */
  predicate SaysConfirmed(p: Page) {
    AnyMarker(Text.Lower(PageText(p)), CONFIRMED_MARKERS) || Text.Contains(Text.Lower(p.url), "confirmation")
  }

  function VerifySubmission(p: Page, now: int): (e: Evidence)
    ensures e.certainty.Confirmed? <==> SaysConfirmed(p)
    ensures e.certainty.Likely? <==> !SaysConfirmed(p) && AnyMarker(Text.Lower(PageText(p)), LIKELY_MARKERS)
    ensures !e.certainty.NotAttempted? && e.url == p.url && e.recordedAt == Some(now)
  {
    var certainty :=
      if SaysConfirmed(p) then Confirmed
      else if AnyMarker(Text.Lower(PageText(p)), LIKELY_MARKERS) then Likely
      else Uncertain;
    Evidence(certainty, p.url, Some(now))
  }

  function Summary(p: Page): PageSummary {
    var text := PageText(p);
    PageSummary(p.url, if |text| > SUMMARY_CHARS then text[..SUMMARY_CHARS] else text)
  }

  // ----- Permissions -----

  predicate MayFill(mode: ExecutionMode) {
    mode.FillNoSubmit? || mode.AutonomousSubmit?
  }

  predicate MaySubmit(mode: ExecutionMode) {
    mode.AutonomousSubmit?
  }

  // ----- Handoff and questions -----

  function ConditionReason(c: PageCondition): InterventionReason {
    match c
    case LoginRequired => AuthenticationRequired
    case HumanChallenge => CaptchaRequired
    case AutomationBlockedPage => AutomationBlocked
    case _ => UnknownInteraction
  }

  function DraftFor(answers: seq<AnswerDraft>, key: string): (r: Option<AnswerDraft>)
    ensures r.Some? ==> r.value in answers && r.value.key == key
    ensures r.None? ==> forall d :: d in answers ==> d.key != key
  {
    if answers == [] then None
    else if answers[0].key == key then Some(answers[0])
    else DraftFor(answers[1..], key)
  }

  /** One question: remember it, draft an answer once, and stop if a human must answer. */
  function TakeQuestion(a: Attempt, q: Question, c: DriverContext): Attempt {
    var a := if q.key in a.questions then a else a.(questions := a.questions + [q.key]);
    if DraftFor(a.answers, q.key).Some? then a else a.(answers := a.answers + [c.decide(q).draft])
  }

  function PauseOn(a: Attempt, q: Question): Attempt {
    a.OpenIntervention(if q.legal then LegalAttestation else AmbiguousQuestion, false, Some(q.key))
  }

  function AdvanceQuestions(a: Attempt, qs: seq<Question>, c: DriverContext): (r: (Attempt, bool))
    ensures !r.1 <==> forall q :: q in qs ==> !c.decide(q).Stops()
    decreases |qs|
  {
    if qs == [] then (a, false)
    else
      var a := TakeQuestion(a, qs[0], c);
      if c.decide(qs[0]).Stops() then (PauseOn(a, qs[0]), true)
      else AdvanceQuestions(a, qs[1..], c)
  }

  // ----- Filling -----

  /** The last submittable draft for a key: a later entry of the source's mapping wins. */
  function ReadyAnswer(answers: seq<AnswerDraft>, key: string): Option<string>
  {
    if answers == [] then None
    else
      var last := answers[|answers| - 1];
      if last.key == key && last.Submittable() then last.text
      else ReadyAnswer(answers[..|answers| - 1], key)
  }

  function FillAll(w: World, answers: seq<AnswerDraft>, qs: seq<Question>): Io<()>
    decreases |qs|
  {
    if qs == [] then Done(w, ())
    else
      var draft := ReadyAnswer(answers, qs[0].key);
      if Present(draft) && Present(qs[0].locator) then
        var (w, _) :- w.Act(Filled(qs[0].locator.value, draft.value));
        FillAll(w, answers, qs[1..])
      else
        FillAll(w, answers, qs[1..])
  }

  function FileInputs(elements: seq<Element>): seq<Element> {
    if elements == [] then []
    else (if elements[0].isFileInput then [elements[0]] else []) + FileInputs(elements[1..])
  }

  function UploadAll(w: World, a: Attempt, inputs: seq<Element>, path: string): Io<Attempt>
    decreases |inputs|
  {
    if inputs == [] then Done(w, a)
    else
      var (w, ok) :- w.Act(Uploaded(inputs[0].locator, path));
      UploadAll(w, a.(uploads := a.uploads + [Upload(inputs[0].locator, path, ok)]), inputs[1..], path)
  }

  function UploadDocuments(w: World, a: Attempt, p: Page, c: DriverContext): Io<Attempt> {
    if c.resume.None? then Done(w, a)
    else
      var (w, a) :- UploadAll(w, a, FileInputs(p.elements), c.resume.value);
      Done(w, if a.uploads == [] then a else a.RecordCheckpoint(DocumentsUploaded))
  }

  // ----- Evidence -----

  function HandleEvidence(a: Attempt, e: Evidence, now: int): (Attempt, OutcomeKind) {
    if Completes(e.certainty) then (a.(evidence := e).Complete(e, now), CompletedRun)
    else (a.(evidence := e).OpenIntervention(UserReview, true, None), Waiting)
  }

  // ----- The flow -----

  /** Everything from the decision to click onwards. */
  function Submit(w: World, a: Attempt, submit: Element, now: int): Io<(Attempt, OutcomeKind)> {
    var a := a.MarkSubmissionAttempted(now);
    var (w, _) :- w.Commit(a, w.tasks);
    var (w, ok) :- w.Act(Clicked(submit.locator, SubmitKey(a.id)));
    var (w, page) :- w.ObservePage();
    var a := a.RecordObservation(Summary(page));
    Done(w, if ok then HandleEvidence(a, VerifySubmission(page, now), now)
            else (a.Fail("application.submit_failed", now), FailedRun))
  }

  /** What is decided once the form is filled in: stop at the review page, or submit. */
  function Decided(w: World, a: Attempt, page: Page, c: DriverContext): Io<(Attempt, OutcomeKind)> {
    var submit := FirstSubmit(page.elements, c.isSubmit);
    if submit.None? then Done(w, (a.RecordCheckpoint(ReviewPageReached), Continued))
    else if !MaySubmit(c.mode) then
      Done(w, (a.RecordCheckpoint(ReviewPageReached).(state := Completed), CompletedRun))
    else Submit(w, a, submit.value, c.now)
  }

  /** A page that needs no human and stops on no question: fill it, then submit if allowed. */
  function FillAndSubmit(w: World, a: Attempt, page: Page, c: DriverContext): Io<(Attempt, OutcomeKind)> {
    if !MayFill(c.mode) then Raised(w)
    else
      var (w, _) :- FillAll(w, a.answers, page.questions);
      var a := a.RecordCheckpoint(QuestionnaireComplete);
      var (w, a) :- if FileInputs(page.elements) == [] then Done(w, a) else UploadDocuments(w, a, page, c);
      Decided(w, a, page, c)
  }

  function OpenForm(w: World, a: Attempt, c: DriverContext): Io<(Attempt, OutcomeKind)> {
    var (w, page) :- w.Navigate(c.applyUrl);
    var a := a.RecordObservation(Summary(page)).RecordCheckpoint(ApplicationOpened);
    if NeedsHandoff(page.condition) then
      var reason := ConditionReason(page.condition);
      Done(w, (a.OpenIntervention(reason, HandoffByDefault(reason), None), Waiting))
    else
      var (a, paused) := AdvanceQuestions(a, page.questions, c);
      if paused then Done(w, (a, Waiting)) else FillAndSubmit(w, a, page, c)
  }

  /** A submit was already attempted: look at the page and judge it. */
  function Verify(w: World, a: Attempt, now: int): Io<(Attempt, OutcomeKind)> {
    var (w, page) :- w.ObservePage();
    Done(w, HandleEvidence(a.RecordObservation(Summary(page)), VerifySubmission(page, now), now))
  }

  function RunForm(w: World, a: Attempt, c: DriverContext): Io<(Attempt, OutcomeKind)> {
    var (w, owner) :- w.Emit(Began(c)).ReadOwner();
    if !owner.Agent? then Done(w, (a.OpenIntervention(UnknownInteraction, true, None), Waiting))
    else
      var a := a.(state := Running);
      var a := if a.events == [] then a.RecordEvent(Started) else a;
      if a.submissionAttemptedAt.Some? then Verify(w, a, c.now) else OpenForm(w, a, c)
  }

  // ----- The flow as the source runs it -----

  method HandleSubmissionEvidence(attempt: ApplicationAttempt, e: Evidence, now: int) returns (k: OutcomeKind)
    modifies attempt
    ensures (attempt.Value(), k) == HandleEvidence(old(attempt.Value()), e, now)
  {
    attempt.evidence := e;
    if Completes(e.certainty) {
      attempt.Complete(e, now);
      k := CompletedRun;
    } else {
      attempt.OpenIntervention(UserReview, Some(true), None);
      k := Waiting;
    }
  }

  method HandoffFor(attempt: ApplicationAttempt, page: Page) returns (blocked: bool)
    modifies attempt
    ensures blocked == NeedsHandoff(page.condition)
    ensures attempt.Value() ==
            if blocked then
              var reason := ConditionReason(page.condition);
              old(attempt.Value()).OpenIntervention(reason, HandoffByDefault(reason), None)
            else old(attempt.Value())
  {
    blocked := NeedsHandoff(page.condition);
    if blocked {
      attempt.OpenIntervention(ConditionReason(page.condition), None, None);
    }
  }

  method AskQuestions(attempt: ApplicationAttempt, page: Page, c: DriverContext) returns (paused: bool)
    modifies attempt
    ensures (attempt.Value(), paused) == AdvanceQuestions(old(attempt.Value()), page.questions, c)
  {
    var i := 0;
    assert page.questions[0..] == page.questions;
    while i < |page.questions|
      invariant 0 <= i <= |page.questions|
      invariant AdvanceQuestions(attempt.Value(), page.questions[i..], c)
             == AdvanceQuestions(old(attempt.Value()), page.questions, c)
    {
      var q := page.questions[i];
      var decision := c.decide(q);
      ghost var before := attempt.Value();
      assert page.questions[i..][1..] == page.questions[i + 1..];
      if q.key !in attempt.questions {
        attempt.questions := attempt.questions + [q.key];
      }
      if DraftFor(attempt.answers, q.key).None? {
        attempt.answers := attempt.answers + [decision.draft];
      }
      assert attempt.Value() == TakeQuestion(before, q, c);
      if decision.Stops() {
        attempt.OpenIntervention(if q.legal then LegalAttestation else AmbiguousQuestion, Some(false), Some(q.key));
        return true;
      }
      i := i + 1;
    }
    paused := false;
  }

  method ApplyReadyAnswers(attempt: ApplicationAttempt, session: Connection, page: Page) returns (r: Option<()>)
    modifies session
    ensures Matches(FillAll(old(session.Value()), attempt.answers, page.questions), session.Value(), r)
  {
    var i := 0;
    assert page.questions[0..] == page.questions;
    while i < |page.questions|
      invariant 0 <= i <= |page.questions|
      invariant FillAll(session.Value(), attempt.answers, page.questions[i..])
             == FillAll(old(session.Value()), attempt.answers, page.questions)
    {
      var q := page.questions[i];
      assert page.questions[i..][1..] == page.questions[i + 1..];
      var draft := ReadyAnswer(attempt.answers, q.key);
      if Present(draft) && Present(q.locator) {
        var filled := session.Act(Filled(q.locator.value, draft.value));
        if filled.None? {
          return None;
        }
      }
      i := i + 1;
    }
    r := Some(());
  }

  method AttachDocuments(attempt: ApplicationAttempt, session: Connection, page: Page, c: DriverContext)
    returns (r: Option<()>)
    modifies attempt, session
    ensures match UploadDocuments(old(session.Value()), old(attempt.Value()), page, c)
            case Raised(w) => session.Value() == w && r.None?
            case Done(w, a) => session.Value() == w && attempt.Value() == a && r.Some?
  {
    if c.resume.None? {
      return Some(());
    }
    var path := c.resume.value;
    var inputs := FileInputs(page.elements);
    var i := 0;
    assert inputs[0..] == inputs;
    while i < |inputs|
      invariant 0 <= i <= |inputs|
      invariant UploadAll(session.Value(), attempt.Value(), inputs[i..], path)
             == UploadAll(old(session.Value()), old(attempt.Value()), inputs, path)
    {
      assert inputs[i..][1..] == inputs[i + 1..];
      var ok := session.Act(Uploaded(inputs[i].locator, path));
      if ok.None? {
        return None;
      }
      attempt.uploads := attempt.uploads + [Upload(inputs[i].locator, path, ok.value)];
      i := i + 1;
    }
    if attempt.uploads != [] {
      attempt.RecordCheckpoint(DocumentsUploaded);
    }
    r := Some(());
  }

  /** The awaited call either raised, leaving the session as `io` says, or finished
      with the attempt and the outcome `io` says. */
  ghost predicate Ran(io: Io<(Attempt, OutcomeKind)>, w: World, a: Attempt, r: Option<OutcomeKind>) {
    match io
    case Raised(x) => w == x && r.None?
    case Done(x, (b, k)) => w == x && a == b && r == Some(k)
  }

  method ClickSubmit(attempt: ApplicationAttempt, session: Connection, submit: Element, now: int)
    returns (r: Option<OutcomeKind>)
    modifies attempt, session
    ensures Ran(Submit(old(session.Value()), old(attempt.Value()), submit, now), session.Value(), attempt.Value(), r)
  {
    attempt.MarkSubmissionAttempted(now);
    var saved := session.Commit(attempt.Value(), session.tasks);
    if saved.None? {
      return None;
    }
    var clicked := session.Act(Clicked(submit.locator, SubmitKey(attempt.id)));
    if clicked.None? {
      return None;
    }
    var page := session.ObservePage();
    if page.None? {
      return None;
    }
    attempt.RecordObservation(Summary(page.value));
    if !clicked.value {
      attempt.Fail("application.submit_failed", now);
      return Some(FailedRun);
    }
    var kind := HandleSubmissionEvidence(attempt, VerifySubmission(page.value, now), now);
    r := Some(kind);
  }

  method CompleteForm(attempt: ApplicationAttempt, session: Connection, page: Page, c: DriverContext)
    returns (r: Option<OutcomeKind>)
    modifies attempt, session
    ensures Ran(FillAndSubmit(old(session.Value()), old(attempt.Value()), page, c),
                session.Value(), attempt.Value(), r)
  {
    if !MayFill(c.mode) {
      return None;
    }
    var filled := ApplyReadyAnswers(attempt, session, page);
    if filled.None? {
      return None;
    }
    attempt.RecordCheckpoint(QuestionnaireComplete);
    if FileInputs(page.elements) != [] {
      var attached := AttachDocuments(attempt, session, page, c);
      if attached.None? {
        return None;
      }
    }
    var submit := FirstSubmit(page.elements, c.isSubmit);
    if submit.None? {
      attempt.RecordCheckpoint(ReviewPageReached);
      return Some(Continued);
    }
    if !MaySubmit(c.mode) {
      attempt.RecordCheckpoint(ReviewPageReached);
      attempt.state := Completed;
      return Some(CompletedRun);
    }
    r := ClickSubmit(attempt, session, submit.value, c.now);
  }

  method VerifyEarlierSubmit(attempt: ApplicationAttempt, session: Connection, now: int)
    returns (r: Option<OutcomeKind>)
    modifies attempt, session
    ensures Ran(Verify(old(session.Value()), old(attempt.Value()), now), session.Value(), attempt.Value(), r)
  {
    var seen := session.ObservePage();
    if seen.None? {
      return None;
    }
    attempt.RecordObservation(Summary(seen.value));
    var kind := HandleSubmissionEvidence(attempt, VerifySubmission(seen.value, now), now);
    r := Some(kind);
  }

  method VisitForm(attempt: ApplicationAttempt, session: Connection, c: DriverContext)
    returns (r: Option<OutcomeKind>)
    modifies attempt, session
    ensures Ran(OpenForm(old(session.Value()), old(attempt.Value()), c), session.Value(), attempt.Value(), r)
  {
    var page := session.Navigate(c.applyUrl);
    if page.None? {
      return None;
    }
    attempt.RecordObservation(Summary(page.value));
    attempt.RecordCheckpoint(ApplicationOpened);
    var blocked := HandoffFor(attempt, page.value);
    if blocked {
      return Some(Waiting);
    }
    var paused := AskQuestions(attempt, page.value, c);
    if paused {
      return Some(Waiting);
    }
    r := CompleteForm(attempt, session, page.value, c);
  }

  method RunFormApplication(attempt: ApplicationAttempt, session: Connection, c: DriverContext)
    returns (r: Option<OutcomeKind>)
    modifies attempt, session
    ensures Ran(RunForm(old(session.Value()), old(attempt.Value()), c), session.Value(), attempt.Value(), r)
  {
    session.Emit(Began(c));
    var owner := session.ReadOwner();
    if owner.None? {
      return None;
    }
    if !owner.value.Agent? {
      attempt.OpenIntervention(UnknownInteraction, Some(true), None);
      return Some(Waiting);
    }
    attempt.state := Running;
    if attempt.events == [] {
      attempt.RecordEvent(Started);
    }
    if attempt.submissionAttemptedAt.Some? {
      r := VerifyEarlierSubmit(attempt, session, c.now);
    } else {
      r := VisitForm(attempt, session, c);
    }
  }
}

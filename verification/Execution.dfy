/** The durable execution aggregate: one try at one application.

    `Attempt` is the value a database row holds; `ApplicationAttempt` is the object
    the driver mutates while a run is in progress. Every method of the object is
    specified by a function on the value.
 */
module Execution {
  import opened Wrappers

  datatype WorkflowState =
    | Pending | Running | WaitingForHuman | WaitingForProvider
    | RetryScheduled | Completed | Failed | Cancelled

  predicate Terminal(s: WorkflowState) {
    s.Completed? || s.Failed? || s.Cancelled?
  }

  datatype ExecutionMode = ResearchOnly | PrepareApplication | FillNoSubmit | AutonomousSubmit

  datatype InterventionReason =
    | AuthenticationRequired | CaptchaRequired | MfaRequired | IdentityVerification
    | LegalAttestation | AmbiguousQuestion | DocumentRequired | PaymentOrFee
    | UserReview | AutomationBlocked | UnknownInteraction

  predicate HandoffByDefault(r: InterventionReason) {
    r.AuthenticationRequired? || r.CaptchaRequired? || r.MfaRequired? || r.IdentityVerification?
    || r.AutomationBlocked? || r.UnknownInteraction? || r.UserReview?
  }

  datatype Resolution =
    | DoneContinue | SkipApplication | KeepControl | Answer | Approve | Reject
    | ProvideDocument | Cancel

  datatype Certainty = Confirmed | Likely | Uncertain | NotAttempted

  /** The certainties that may close an attempt as submitted. */
  predicate Completes(c: Certainty) {
    c.Confirmed? || c.Likely?
  }

  datatype Checkpoint =
    | ApplicationOpened | QuestionnaireComplete | DocumentsUploaded
    | ReviewPageReached | SubmissionConfirmed

  datatype EventKind =
    | Started | CheckpointReached | InterventionOpened | ReclaimFailed | ControlKept
    | FailureRecorded | Resumed | BrowserSelected | Submitted | CompletedEvent | CancelledEvent

  datatype AnswerStatus = ReadyToSubmit | NeedsReview | NeedsUser | UserProvided

  datatype AnswerDraft = AnswerDraft(key: string, text: Option<string>, status: AnswerStatus) {
    predicate Submittable() {
      (status.ReadyToSubmit? || status.UserProvided?) && Present(text)
    }
  }

  datatype Upload = Upload(locator: string, path: string, confirmed: bool)

  datatype Failure = Failure(code: string, checkpoint: Option<Checkpoint>)

  datatype Evidence = Evidence(certainty: Certainty, url: string, recordedAt: Option<int>)

  /** A typed pause. It is addressed by its position in the attempt's list, which
      only ever grows, so positions are as stable as the source's generated ids. */
  datatype Intervention = Intervention(
    reason: InterventionReason,
    handoff: bool,
    questionKey: Option<string>,
    host: Option<string>,
    session: Option<string>,
    resolution: Option<Resolution>)
  {
    predicate IsOpen() { resolution.None? }
  }

  datatype PageSummary = PageSummary(url: string, text: string)

  const MAX_OBSERVATIONS := 40
  const KEPT_OBSERVATIONS := 20
  const SUMMARY_CHARS := 500

  datatype Attempt = Attempt(
    id: string,
    mode: ExecutionMode,
    state: WorkflowState,
    submissionAttemptedAt: Option<int>,
    completedAt: Option<int>,
    evidence: Evidence,
    host: Option<string>,
    session: Option<string>,
    backend: Option<string>,
    interventions: seq<Intervention>,
    questions: seq<string>,
    answers: seq<AnswerDraft>,
    uploads: seq<Upload>,
    checkpoints: seq<Checkpoint>,
    failures: seq<Failure>,
    events: seq<EventKind>,
    observations: seq<PageSummary>)
  {
    function RecordEvent(kind: EventKind): Attempt {
      this.(events := events + [kind])
    }

    function RecordCheckpoint(kind: Checkpoint): Attempt {
      this.(checkpoints := checkpoints + [kind], events := events + [CheckpointReached])
    }

    function OpenIntervention(reason: InterventionReason, handoff: bool, questionKey: Option<string>): Attempt {
      this.(
      interventions := interventions + [Intervention(reason, handoff, questionKey, host, session, None)],
      state := WaitingForHuman,
      events := events + [InterventionOpened])
    }

    function RecordObservation(s: PageSummary): Attempt {
      var grown := observations + [s];
      this.(observations := if |grown| > MAX_OBSERVATIONS then grown[|grown| - KEPT_OBSERVATIONS..] else grown)
    }

    function MarkSubmissionAttempted(now: int): Attempt {
      if submissionAttemptedAt.Some? then this
      else this.(submissionAttemptedAt := Some(now), events := events + [Submitted])
    }

    function LatestCheckpoint(): Option<Checkpoint> {
      if checkpoints == [] then None else Some(checkpoints[|checkpoints| - 1])
    }

    function Fail(code: string, now: int): Attempt {
      this.(
      failures := failures + [Failure(code, LatestCheckpoint())],
      state := WorkflowState.Failed,
      completedAt := Some(now),
      events := events + [FailureRecorded])
    }

    function Complete(e: Evidence, now: int): Attempt {
      this.(
      evidence := e,
      state := Completed,
      completedAt := Some(now),
      checkpoints := checkpoints + [SubmissionConfirmed],
      events := events + [CheckpointReached, CompletedEvent])
    }

    function Cancelled(now: int): Attempt {
      this.(state := WorkflowState.Cancelled, completedAt := Some(now), events := events + [CancelledEvent])
    }

    function ResolveIntervention(i: nat, r: Resolution): Attempt
      requires i < |interventions|
    {
      this.(interventions := interventions[i := interventions[i].(resolution := Some(r))])
    }

    /** The first open intervention, as the inbox shows it. */
    function PendingIntervention(): (r: Option<nat>)
      ensures r.Some? ==> r.value < |interventions| && interventions[r.value].IsOpen()
      ensures r.Some? ==> forall k :: 0 <= k < r.value ==> !interventions[k].IsOpen()
      ensures r.None? ==> forall k :: 0 <= k < |interventions| ==> !interventions[k].IsOpen()
    {
      FirstOpen(interventions, 0)
    }
  }

  function FirstOpen(s: seq<Intervention>, from: nat): (r: Option<nat>)
    requires from <= |s|
    requires forall k :: 0 <= k < from ==> !s[k].IsOpen()
    ensures r.Some? ==> r.value < |s| && s[r.value].IsOpen()
    ensures r.Some? ==> forall k :: 0 <= k < r.value ==> !s[k].IsOpen()
    ensures r.None? ==> forall k :: 0 <= k < |s| ==> !s[k].IsOpen()
    decreases |s| - from
  {
    if from == |s| then None
    else if s[from].IsOpen() then Some(from)
    else FirstOpen(s, from + 1)
  }

  /** What `AttemptService.create` writes. */
  function NewAttempt(id: string, mode: ExecutionMode, host: Option<string>): Attempt {
    Attempt(id, mode, Pending, None, None, Evidence(NotAttempted, "", None), host, None, None,
            [], [], [], [], [], [], [], [])
  }

  class ApplicationAttempt {
    const id: string
    const mode: ExecutionMode
    var state: WorkflowState
    var submissionAttemptedAt: Option<int>
    var completedAt: Option<int>
    var evidence: Evidence
    var host: Option<string>
    var session: Option<string>
    var backend: Option<string>
    var interventions: seq<Intervention>
    var questions: seq<string>
    var answers: seq<AnswerDraft>
    var uploads: seq<Upload>
    var checkpoints: seq<Checkpoint>
    var failures: seq<Failure>
    var events: seq<EventKind>
    var observations: seq<PageSummary>

    /** The row this object would be saved as. */
    function Value(): Attempt
      reads this
    {
      Attempt(id, mode, state, submissionAttemptedAt, completedAt, evidence, host, session, backend,
              interventions, questions, answers, uploads, checkpoints, failures, events, observations)
    }

    /** Rebuild the object from its row. */
    constructor (a: Attempt)
      ensures Value() == a
    {
      id, mode, state := a.id, a.mode, a.state;
      submissionAttemptedAt, completedAt, evidence := a.submissionAttemptedAt, a.completedAt, a.evidence;
      host, session, backend := a.host, a.session, a.backend;
      interventions, questions, answers := a.interventions, a.questions, a.answers;
      uploads, checkpoints, failures := a.uploads, a.checkpoints, a.failures;
      events, observations := a.events, a.observations;
    }

    method RecordEvent(kind: EventKind)
      modifies this
      ensures Value() == old(Value()).RecordEvent(kind)
    {
      events := events + [kind];
    }

    method RecordCheckpoint(kind: Checkpoint)
      modifies this
      ensures Value() == old(Value()).RecordCheckpoint(kind)
    {
      checkpoints := checkpoints + [kind];
      RecordEvent(CheckpointReached);
    }

    method OpenIntervention(reason: InterventionReason, handoff: Option<bool>, questionKey: Option<string>)
      modifies this
      ensures Value() == old(Value()).OpenIntervention(
                           reason,
                           if handoff.Some? then handoff.value else HandoffByDefault(reason),
                           questionKey)
    {
      var item := Intervention(reason, HandoffByDefault(reason), questionKey, host, session, None);
      if handoff.Some? {
        item := item.(handoff := handoff.value);
      }
      interventions := interventions + [item];
      state := WaitingForHuman;
      RecordEvent(InterventionOpened);
    }

    method RecordObservation(s: PageSummary)
      modifies this
      ensures Value() == old(Value()).RecordObservation(s)
    {
      observations := observations + [s];
      if |observations| > MAX_OBSERVATIONS {
        observations := observations[|observations| - KEPT_OBSERVATIONS..];
      }
    }

    method MarkSubmissionAttempted(now: int)
      modifies this
      ensures Value() == old(Value()).MarkSubmissionAttempted(now)
      ensures submissionAttemptedAt.Some?
    {
      if submissionAttemptedAt.None? {
        submissionAttemptedAt := Some(now);
        RecordEvent(Submitted);
      }
    }

    method Fail(code: string, now: int)
      modifies this
      ensures Value() == old(Value()).Fail(code, now)
    {
      var latest := if checkpoints == [] then None else Some(checkpoints[|checkpoints| - 1]);
      failures := failures + [Failure(code, latest)];
      state := WorkflowState.Failed;
      completedAt := Some(now);
      RecordEvent(FailureRecorded);
    }

    method Complete(e: Evidence, now: int)
      modifies this
      ensures Value() == old(Value()).Complete(e, now)
    {
      evidence := e;
      state := Completed;
      completedAt := Some(now);
      RecordCheckpoint(SubmissionConfirmed);
      RecordEvent(CompletedEvent);
      assert [CheckpointReached] + [CompletedEvent] == [CheckpointReached, CompletedEvent];
    }
  }
}

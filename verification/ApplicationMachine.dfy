/** The hiring process of one application: a state, a log of transitions, and the four
    writers that move it. The transition table is a parameter of everything except the
    section on the shipped table. */
module ApplicationMachine {
  import opened Wrappers
  import Execution

  datatype AppState =
    | Discovered | Evaluating | Skipped | Shortlisted | Preparing | Ready | Applying
    | Submitted | Confirmed | RecruiterContact | Assessment | Interview | FollowUp
    | Rejected | Withdrawn | Offer | Accepted | Closed | Failed | NeedsAttention

  /** States that mean an application exists at the employer. */
  predicate IsSubmitted(s: AppState) {
    s.Submitted? || s.Confirmed? || s.RecruiterContact? || s.Assessment? || s.Interview? || s.FollowUp?
    || s.Offer? || s.Accepted?
  }

  type Table = AppState -> set<AppState>

  datatype Event = Event(from: Option<AppState>, to: Option<AppState>, at: int)

  datatype App = App(state: AppState, events: seq<Event>, updatedAt: int, submittedAt: Option<int>)

  // ----- Specification -----

  predicate CanMove(table: Table, current: AppState, target: AppState) {
    current == target || target in table(current)
  }

  /** A legal transition, with its event on the log. */
  function Moved(a: App, to: AppState, now: int): App {
    App(to, a.events + [Event(Some(a.state), Some(to), now)], now,
        if IsSubmitted(to) && a.submittedAt.None? then Some(now) else a.submittedAt)
  }

  function Replay(events: seq<Event>): AppState {
    if events == [] then Discovered
    else
      var last := events[|events| - 1];
      if last.to.Some? then last.to.value else Replay(events[..|events| - 1])
  }

  const PATH: seq<AppState> := [Shortlisted, Preparing, Ready, Applying]

  /** Hops along the path from `i` on until one is not legal. */
  function Walk(table: Table, a: App, i: nat, now: int): App
    decreases |PATH| - i
  {
    if i >= |PATH| || !CanMove(table, a.state, PATH[i]) then a
    else Walk(table, Moved(a, PATH[i], now), i + 1, now)
  }

  function Advanced(table: Table, a: App, now: int): App {
    if a.state.Applying? then a else Walk(table, a, 0, now)
  }

  function Candidates(w: Execution.WorkflowState): seq<AppState> {
    match w
    case Completed => [Submitted]
    case Cancelled => [Withdrawn, Skipped]
    case _ => []
  }

  function FirstLegal(table: Table, current: AppState, candidates: seq<AppState>): Option<AppState> {
    if candidates == [] then None
    else if CanMove(table, current, candidates[0]) then Some(candidates[0])
    else FirstLegal(table, current, candidates[1..])
  }

  /** What an attempt that ended does to the application; a refused move changes nothing. */
  function Reconciled(table: Table, a: App, w: Execution.WorkflowState, now: int): App {
    var target := FirstLegal(table, a.state, Candidates(w));
    if target.None? || a.state == target.value then a else Moved(a, target.value, now)
  }

  datatype Recommendation = Apply | Investigate | Skip

  function Target(r: Recommendation): AppState {
    if r.Skip? then Skipped else Shortlisted
  }

  predicate Advancing(s: AppState) {
    s.Preparing? || s.Ready? || s.Applying?
  }

  function Scored(table: Table, a: App, r: Recommendation, now: int): App {
    var target := Target(r);
    if Advancing(a.state) || IsSubmitted(a.state) || a.state == target || !CanMove(table, a.state, target) then a
    else Moved(a, target, now)
  }

  function Chosen(table: Table, a: App, to: AppState, now: int): App {
    if CanMove(table, a.state, to) then Moved(a, to, now) else a
  }

  // ----- The record and its writers as the source runs them -----

  class Application {
    var state: AppState
    var events: seq<Event>
    var updatedAt: int
    var submittedAt: Option<int>

    function Value(): App
      reads this
    {
      App(state, events, updatedAt, submittedAt)
    }

    constructor (now: int)
      ensures Value() == App(Discovered, [], now, None)
    {
      state, events, updatedAt, submittedAt := Discovered, [], now, None;
    }
  }

  class Machine {
    const table: Table

    constructor (table: Table)
      ensures this.table == table
    {
      this.table := table;
    }

    /** Refuses an illegal move and leaves the record alone. */
    method Transition(a: Application, to: AppState, now: int) returns (ok: bool)
      modifies a
      ensures ok == CanMove(table, old(a.state), to)
      ensures a.Value() == Chosen(table, old(a.Value()), to, now)
    {
      if !CanMove(table, a.state, to) {
        return false;
      }
      a.events := a.events + [Event(Some(a.state), Some(to), now)];
      a.state := to;
      a.updatedAt := now;
      if IsSubmitted(to) && a.submittedAt.None? {
        a.submittedAt := Some(now);
      }
      ok := true;
    }

    method ReplayLog(log: seq<Event>) returns (state: AppState)
      ensures state == Replay(log)
    {
      state := Discovered;
      for i := 0 to |log|
        invariant state == Replay(log[..i])
      {
        assert log[..i + 1][..i] == log[..i];
        if log[i].to.Some? {
          state := log[i].to.value;
        }
      }
      assert log[..|log|] == log;
    }

    method AdvanceToApplying(a: Application, now: int)
      modifies a
      ensures a.Value() == Advanced(table, old(a.Value()), now)
    {
      if a.state.Applying? {
        return;
      }
      var i := 0;
      while i < |PATH|
        invariant 0 <= i <= |PATH|
        invariant Walk(table, a.Value(), i, now) == Walk(table, old(a.Value()), 0, now)
      {
        if !CanMove(table, a.state, PATH[i]) {
          break;
        }
        var ok := Transition(a, PATH[i], now);
        i := i + 1;
      }
    }

    method Reconcile(a: Application, w: Execution.WorkflowState, now: int)
      modifies a
      ensures a.Value() == Reconciled(table, old(a.Value()), w, now)
    {
      var target := FirstLegal(table, a.state, Candidates(w));
      if target.None? || a.state == target.value {
        return;
      }
      LegalIsLegal(table, a.state, Candidates(w));
      var ok := Transition(a, target.value, now);
    }

    method ApplyScore(a: Application, r: Recommendation, now: int)
      modifies a
      ensures a.Value() == Scored(table, old(a.Value()), r, now)
    {
      if Advancing(a.state) || IsSubmitted(a.state) {
        return;
      }
      if a.state != Target(r) {
        var ok := Transition(a, Target(r), now);
      }
    }
  }

  lemma {:induction false} LegalIsLegal(table: Table, current: AppState, candidates: seq<AppState>)
    ensures var r := FirstLegal(table, current, candidates);
            r.Some? ==> r.value in candidates && CanMove(table, current, r.value)
  {
    if candidates != [] && !CanMove(table, current, candidates[0]) {
      LegalIsLegal(table, current, candidates[1..]);
    }
  }

  // ----- Any table, any interleaving of the writers -----

  datatype Write =
    | Starts(now: int)
    | Ends(w: Execution.WorkflowState, now: int)
    | Scores(r: Recommendation, now: int)
    | Chooses(to: AppState, now: int)

  function Step(table: Table, a: App, e: Write): App {
    match e
    case Starts(now) => Advanced(table, a, now)
    case Ends(w, now) => Reconciled(table, a, w, now)
    case Scores(r, now) => Scored(table, a, r, now)
    case Chooses(to, now) => Chosen(table, a, to, now)
  }

  function Run(table: Table, a: App, writes: seq<Write>): App {
    if writes == [] then a else Step(table, Run(table, a, writes[..|writes| - 1]), writes[|writes| - 1])
  }

  function Created(now: int): App {
    App(Discovered, [], now, None)
  }

  /** The time of the first event that enters a submitted state. */
  function FirstSubmitted(events: seq<Event>): Option<int> {
    if events == [] then None
    else
      var before := FirstSubmitted(events[..|events| - 1]);
      var last := events[|events| - 1];
      if before.Some? then before
      else if last.to.Some? && IsSubmitted(last.to.value) then Some(last.at)
      else None
  }

  /** Event `i` leaves the state the log was in and goes where the table allows. */
  ghost predicate Links(table: Table, events: seq<Event>, i: nat)
    requires i < |events|
  {
    && events[i].from == Some(Replay(events[..i]))
    && events[i].to.Some? && CanMove(table, Replay(events[..i]), events[i].to.value)
  }

  /** The log is the record: it replays to the cached state, every event starts where the
      one before ended and is legal, and the submission time is that of the first
      submitted event. */
  ghost predicate Consistent(table: Table, a: App) {
    && Replay(a.events) == a.state
    && (forall i :: 0 <= i < |a.events| ==> Links(table, a.events, i))
    && a.submittedAt == FirstSubmitted(a.events)
  }

  lemma MoveConsistent(table: Table, a: App, to: AppState, now: int)
    requires Consistent(table, a) && CanMove(table, a.state, to)
    ensures Consistent(table, Moved(a, to, now))
    ensures a.events <= Moved(a, to, now).events
  {
    var n := Moved(a, to, now);
    assert n.events[..|a.events|] == a.events;
    forall i | 0 <= i < |n.events| ensures Links(table, n.events, i) {
      if i < |a.events| {
        assert Links(table, a.events, i);
        assert n.events[..i] == a.events[..i];
      }
    }
  }

  lemma {:induction false} WalkConsistent(table: Table, a: App, i: nat, now: int)
    requires Consistent(table, a)
    ensures Consistent(table, Walk(table, a, i, now)) && a.events <= Walk(table, a, i, now).events
    decreases |PATH| - i
  {
    if i < |PATH| && CanMove(table, a.state, PATH[i]) {
      MoveConsistent(table, a, PATH[i], now);
      WalkConsistent(table, Moved(a, PATH[i], now), i + 1, now);
    }
  }

  lemma StepConsistent(table: Table, a: App, e: Write)
    requires Consistent(table, a)
    ensures Consistent(table, Step(table, a, e)) && a.events <= Step(table, a, e).events
  {
    match e
    case Starts(now) => WalkConsistent(table, a, 0, now);
    case Ends(w, now) =>
      LegalIsLegal(table, a.state, Candidates(w));
      var target := FirstLegal(table, a.state, Candidates(w));
      if target.Some? {
        MoveConsistent(table, a, target.value, now);
      }
    case Scores(r, now) =>
      if CanMove(table, a.state, Target(r)) {
        MoveConsistent(table, a, Target(r), now);
      }
    case Chooses(to, now) =>
      if CanMove(table, a.state, to) {
        MoveConsistent(table, a, to, now);
      }
  }

  /** For every table and every interleaving of the writers the log stays the record. */
  lemma {:induction false} LogIsTheRecord(table: Table, writes: seq<Write>, now: int)
    ensures Consistent(table, Run(table, Created(now), writes))
  {
    if writes != [] {
      LogIsTheRecord(table, writes[..|writes| - 1], now);
      StepConsistent(table, Run(table, Created(now), writes[..|writes| - 1]), writes[|writes| - 1]);
    }
  }

  lemma {:induction false} LogOnlyGrows(table: Table, a: App, writes: seq<Write>)
    requires Consistent(table, a)
    ensures Consistent(table, Run(table, a, writes)) && a.events <= Run(table, a, writes).events
  {
    if writes != [] {
      var past := writes[..|writes| - 1];
      LogOnlyGrows(table, a, past);
      StepConsistent(table, Run(table, a, past), writes[|writes| - 1]);
    }
  }

  lemma {:induction false} FirstStays(events: seq<Event>, more: seq<Event>)
    requires events <= more && FirstSubmitted(events).Some?
    ensures FirstSubmitted(more) == FirstSubmitted(events)
    decreases |more|
  {
    if |more| > |events| {
      FirstStays(events, more[..|more| - 1]);
    } else {
      assert events == more;
    }
  }

  /** Once set, the submission time never changes, whatever is written afterwards. */
  lemma {:induction false} SubmittedAtIsFixed(table: Table, before: seq<Write>, after: seq<Write>, now: int)
    requires Run(table, Created(now), before).submittedAt.Some?
    ensures var a := Run(table, Created(now), before);
            Run(table, a, after).submittedAt == a.submittedAt
  {
    var a := Run(table, Created(now), before);
    LogIsTheRecord(table, before, now);
    LogOnlyGrows(table, a, after);
    FirstStays(a.events, Run(table, a, after).events);
  }

  /** Starting an attempt for an application that is applying already changes nothing, whatever
      the table says; and these are the states that mean an application is with the employer. */
  lemma AlreadyApplying(table: Table, a: App, now: int)
    ensures a.state == Applying ==> Advanced(table, a, now) == a
    ensures IsSubmitted(a.state) <==>
            a.state in {Submitted, Confirmed, RecruiterContact, Assessment, Interview, FollowUp, Offer, Accepted}
  {
  }

  // ----- The shipped table -----

  function Shipped(s: AppState): set<AppState> {
    match s
    case Discovered => {Evaluating, Skipped, Shortlisted, Failed, Closed}
    case Evaluating => {Shortlisted, Skipped, NeedsAttention, Failed, Closed}
    case Skipped => {Evaluating, Shortlisted, Closed}
    case Shortlisted => {Preparing, Skipped, Withdrawn, Failed, Closed}
    case Preparing => {Ready, NeedsAttention, Failed, Withdrawn, Skipped}
    case Ready => {Applying, Preparing, Withdrawn, Failed, Skipped}
    case Applying => {Submitted, NeedsAttention, Failed, Ready, Withdrawn}
    case Submitted =>
      {Confirmed, RecruiterContact, Assessment, Interview, Rejected, Withdrawn, FollowUp, NeedsAttention, Closed}
    case Confirmed => {RecruiterContact, Assessment, Interview, Rejected, Withdrawn, FollowUp, Closed}
    case RecruiterContact => {Assessment, Interview, FollowUp, Rejected, Withdrawn, Closed}
    case Assessment => {Interview, Rejected, FollowUp, Withdrawn, NeedsAttention, Closed}
    case Interview => {Interview, Offer, Rejected, FollowUp, Withdrawn, Assessment, Closed}
    case FollowUp => {Interview, Assessment, RecruiterContact, Offer, Rejected, Withdrawn, Closed}
    case Offer => {Accepted, Rejected, Withdrawn, FollowUp, Closed}
    case Accepted => {Closed}
    case Rejected => {Closed, FollowUp}
    case Withdrawn => {Closed}
    case Closed => {}
    case Failed => {NeedsAttention, Shortlisted, Preparing, Ready, Applying, Closed}
    case NeedsAttention =>
      {Evaluating, Shortlisted, Preparing, Ready, Applying, Submitted, Skipped, Withdrawn, Failed, Closed}
  }

  predicate Startable(s: AppState) {
    s.Applying? || s.Discovered? || s.Evaluating? || s.Skipped? || s.Shortlisted? || s.Failed? || s.NeedsAttention?
  }

  /** Starting an attempt is meant to bring the application to APPLYING. It does exactly
      from these states and changes nothing in any other: an application that is being
      prepared, or is ready, stays where it is. */
  lemma StartReachesApplyingIff(a: App, now: int)
    ensures Advanced(Shipped, a, now).state.Applying? <==> Startable(a.state)
    ensures !Startable(a.state) ==> Advanced(Shipped, a, now) == a
  {
    if Startable(a.state) && !a.state.Applying? {
      var b := Moved(a, Shortlisted, now);
      var c := Moved(b, Preparing, now);
      var d := Moved(c, Ready, now);
      assert Walk(Shipped, a, 0, now) == Walk(Shipped, b, 1, now);
      assert Walk(Shipped, b, 1, now) == Walk(Shipped, c, 2, now);
      assert Walk(Shipped, c, 2, now) == Walk(Shipped, d, 3, now);
      assert Walk(Shipped, d, 3, now) == Moved(d, Applying, now);
    }
  }

  /** An application that is started and completed has been submitted, at that time. */
  lemma StartedAndCompleted(now: int, later: int)
    ensures var a := Run(Shipped, Created(now), [Starts(now), Ends(Execution.Completed, later)]);
            a.state == Submitted && a.submittedAt == Some(later)
  {
    var start, end := Starts(now), Ends(Execution.Completed, later);
    assert [start, end][..1] == [start] && [start][..0] == [];
    var a := Run(Shipped, Created(now), [start]);
    assert a == Step(Shipped, Run(Shipped, Created(now), []), start);
    assert Run(Shipped, Created(now), [start, end]) == Step(Shipped, a, end);
    StartReachesApplyingIff(Created(now), now);
    WalkKeepsUnsubmitted(Created(now), 0, now);
    CompletionRecordedIff(a, later);
  }

  lemma {:induction false} WalkKeepsUnsubmitted(a: App, i: nat, now: int)
    requires a.submittedAt.None?
    ensures Walk(Shipped, a, i, now).submittedAt.None?
    decreases |PATH| - i
  {
    if i < |PATH| && CanMove(Shipped, a.state, PATH[i]) {
      WalkKeepsUnsubmitted(Moved(a, PATH[i], now), i + 1, now);
    }
  }

  /** A completed attempt leaves the application submitted exactly when it was applying,
      waiting for attention, or submitted before. Of an attempt started while the
      application was being prepared the submission is therefore never recorded. */
  lemma CompletionRecordedIff(a: App, now: int)
    ensures Reconciled(Shipped, a, Execution.Completed, now).state.Submitted? <==>
            a.state.Applying? || a.state.NeedsAttention? || a.state.Submitted?
    ensures a.state.Preparing? || a.state.Ready? ==>
              Reconciled(Shipped, Advanced(Shipped, a, now), Execution.Completed, now) == a
  {
    assert Candidates(Execution.Completed)[1..] == [];
    StartReachesApplyingIff(a, now);
  }

  /** A cancelled attempt withdraws the application wherever that is legal, skips it where only
      that is, and leaves it alone where neither is; a move that is not legal is never made. */
  lemma CancellationIs(table: Table, a: App, now: int)
    ensures var n := Reconciled(table, a, Execution.WorkflowState.Cancelled, now);
            && (CanMove(table, a.state, Withdrawn) ==> n.state == Withdrawn)
            && (!CanMove(table, a.state, Withdrawn) && CanMove(table, a.state, Skipped) ==> n.state == Skipped)
            && (!CanMove(table, a.state, Withdrawn) && !CanMove(table, a.state, Skipped) ==> n == a)
            && (n.state != a.state ==>
                  n == App(n.state, a.events + [Event(Some(a.state), Some(n.state), now)], now, a.submittedAt))
            && (n.state == a.state ==> n == a)
  {
    var candidates := Candidates(Execution.WorkflowState.Cancelled);
    assert candidates == [Withdrawn, Skipped] && candidates[1..] == [Skipped] && candidates[1..][1..] == [];
  }

  /** Any other ending than a completion or a cancellation leaves the application alone. */
  lemma OtherEndingsChangeNothing(table: Table, a: App, w: Execution.WorkflowState, now: int)
    requires !w.Completed? && !w.Cancelled?
    ensures Reconciled(table, a, w, now) == a
  {
  }

  /** Where a cancelled attempt leaves the application, under the shipped table. */
  lemma CancelledWhere(a: App, now: int)
    ensures var n := Reconciled(Shipped, a, Execution.WorkflowState.Cancelled, now);
            && (n.state == Skipped <==> a.state in {Discovered, Evaluating, Skipped})
            && (n.state == Withdrawn <==>
                  a.state !in {Discovered, Evaluating, Skipped, Accepted, Rejected, Closed, Failed})
  {
    CancellationIs(Shipped, a, now);
  }

  /** Only the attempt's workflow state is looked at: an attempt that was told to fill the
      form and never to submit, once completed, marks the application as submitted too. */
  lemma FillOnlyCountsAsSubmitted(a: App, attempt: Execution.Attempt, now: int)
    requires attempt.mode.FillNoSubmit? && attempt.submissionAttemptedAt.None? && attempt.state.Completed?
    requires a.state.Applying? && a.submittedAt.None?
    ensures Reconciled(Shipped, a, attempt.state, now).state.Submitted?
    ensures Reconciled(Shipped, a, attempt.state, now).submittedAt == Some(now)
  {
    assert Candidates(Execution.Completed)[0] == Submitted;
  }

  /** Whether a new attempt is created for a job: only attempts in flight stand in the way. */
  function Start(table: Table, a: App, inFlight: bool, now: int): Option<App> {
    if inFlight then None else Some(Advanced(table, a, now))
  }

  /** So an application that was already submitted does not stand in the way of applying
      again: it is left as it is and the new attempt is queued. */
  lemma SubmittedMayBeStartedAgain(a: App, inFlight: bool, now: int)
    requires IsSubmitted(a.state)
    ensures Start(Shipped, a, inFlight, now).Some? <==> !inFlight
    ensures !inFlight ==> Start(Shipped, a, inFlight, now) == Some(a)
  {
    StartReachesApplyingIff(a, now);
  }

  /** A re-score must not pull an application back. For one that was submitted at some time
      it does so exactly when the state has since left the submitted ones for one from
      which the target is legal. */
  lemma RescoreRegressesIff(a: App, r: Recommendation, now: int)
    requires a.submittedAt.Some?
    ensures Scored(Shipped, a, r, now) != a <==>
            || a.state.Discovered? || a.state.Evaluating?
            || (a.state.Skipped? && !r.Skip?) || (a.state.Shortlisted? && r.Skip?)
            || (a.state.Failed? && !r.Skip?) || a.state.NeedsAttention?
  {
    if CanMove(Shipped, a.state, Target(r)) {
      assert |Moved(a, Target(r), now).events| != |a.events|;
    }
  }

  /** And that happens: an application that was submitted and then needs attention is
      skipped by the next low score. */
  lemma SubmittedThenSkipped(a: App, now: int)
    requires a.state.Applying?
    ensures var submitted := Step(Shipped, a, Ends(Execution.Completed, now));
            var waiting := Step(Shipped, submitted, Chooses(NeedsAttention, now));
            var scored := Step(Shipped, waiting, Scores(Skip, now));
            submitted.state.Submitted? && scored.state.Skipped? && scored.submittedAt.Some?
  {
    CompletionRecordedIff(a, now);
    var submitted := Step(Shipped, a, Ends(Execution.Completed, now));
    assert submitted.submittedAt.Some?;
  }
}

/** The durable queue and the worker that drives it. */
module TaskQueue {
  import opened Wrappers
  import opened TaskModel
  import opened Recovery
  import opened Lists

  /** How the handler ended. */
  datatype Ending = Finished(result: string) | Errors(error: AppError) | TimesOut | Crashes

  /** A registered handler: its strategies in preference order, and whether it accepts the payload. */
  datatype Handler = Handler(strategies: seq<string>, accepts: bool)

  const TIMEOUT_ERROR: AppError := AppError(TransientNetwork, RetryAfterBackoff, None)
  const UNEXPECTED_ERROR: AppError := AppError(Unknown, EscalateToUser, None)

  // ----- Specification -----

  /** The task with the failed attempt on record and its strategy burned. */
  function Recorded(t: Task, e: AppError, strategy: Option<string>): Task {
    t.(attempts := t.attempts + [Attempt(strategy, Some(e.category))],
    attempted := if Present(strategy) && strategy.value !in t.attempted then t.attempted + [strategy.value]
                 else t.attempted)
  }

  function Failing(t: Task, e: AppError, strategy: Option<string>, available: seq<string>, now: real): Task {
    var r := Recorded(t, e, strategy);
    var d := Decide(r, e, available);
    if d.action.Retrying? then
      r.(state := Retrying, leaseExpires := None,
      scheduledFor := now + if d.delay != 0.0 then d.delay else NextBackoff(r))
    else r.(state := d.action, finishedAt := Some(now), failure := Some(e.category))
  }

  function Completing(t: Task, result: string, now: real): Task {
    t.(state := Succeeded, result := Some(result), finishedAt := Some(now))
  }

  function Parking(t: Task, now: real): Task {
    t.(state := Blocked, finishedAt := Some(now))
  }

  function Requeuing(t: Task, now: real): Task {
    t.(state := Pending, finishedAt := None, failure := None, scheduledFor := now, leaseExpires := None)
  }

  function Picked(h: Handler, t: Task): Option<string> {
    NextStrategy(h.strategies, t.attempted)
  }

  /** The strategy the worker puts on record, whichever one ran. */
  function Burned(h: Handler): Option<string> {
    if h.strategies == [] then None else Some(h.strategies[0])
  }

  function Executing(t: Task, h: Option<Handler>, ending: Ending, now: real): Task {
    if h.None? || !h.value.accepts then
      t.(state := TaskState.Failed, failure := Some(Configuration), finishedAt := Some(now))
    else
      match ending
      case Finished(result) => Completing(t, result, now)
      case Errors(e) => Failing(t, e, Burned(h.value), h.value.strategies, now)
      case TimesOut => Failing(t, TIMEOUT_ERROR, Burned(h.value), h.value.strategies, now)
      case Crashes => Failing(t, UNEXPECTED_ERROR, Burned(h.value), h.value.strategies, now)
  }

  // ----- The record and the queue as the source runs them -----

  class TaskRecord {
    var state: TaskState
    var attempts: seq<Attempt>
    var maxAttempts: int
    var attempted: seq<string>
    var scheduledFor: real
    var leaseExpires: Option<real>
    var finishedAt: Option<real>
    var failure: Option<Category>
    var result: Option<string>

    function Value(): Task
      reads this
    {
      Task(state, attempts, maxAttempts, attempted, scheduledFor, leaseExpires, finishedAt, failure, result)
    }

    constructor (maxAttempts: int, now: real)
      ensures Value() == Task(Pending, [], maxAttempts, [], now, None, None, None, None)
    {
      this.maxAttempts, scheduledFor := maxAttempts, now;
      state, attempts, attempted := Pending, [], [];
      leaseExpires, finishedAt, failure, result := None, None, None, None;
    }

    method Fail(e: AppError, strategy: Option<string>, available: seq<string>, now: real)
      modifies this
      ensures Value() == Failing(old(Value()), e, strategy, available, now)
    {
      attempts := attempts + [Attempt(strategy, Some(e.category))];
      if Present(strategy) && strategy.value !in attempted {
        attempted := attempted + [strategy.value];
      }
      var decision := Decide(Value(), e, available);
      if decision.action.Retrying? {
        state := Retrying;
        scheduledFor := now + if decision.delay != 0.0 then decision.delay else NextBackoff(Value());
        leaseExpires := None;
      } else {
        state := decision.action;
        finishedAt := Some(now);
        failure := Some(e.category);
      }
    }

    method Complete(r: string, now: real)
      modifies this
      ensures Value() == Completing(old(Value()), r, now)
    {
      state, result, finishedAt := Succeeded, Some(r), Some(now);
    }

    method Block(now: real)
      modifies this
      ensures Value() == Parking(old(Value()), now)
    {
      state, finishedAt := Blocked, Some(now);
    }

    method Requeue(now: real)
      modifies this
      ensures Value() == Requeuing(old(Value()), now)
    {
      state, finishedAt, failure := Pending, None, None;
      scheduledFor, leaseExpires := now, None;
    }
  }

  class TaskWorker {
    /** Runs the handler of a claimed task; `ran` is the strategy it was handed. */
    method Execute(task: TaskRecord, h: Option<Handler>, ending: Ending, now: real) returns (ran: Option<string>)
      modifies task
      ensures task.Value() == Executing(old(task.Value()), h, ending, now)
      ensures ran == if h.Some? && h.value.accepts then Picked(h.value, old(task.Value())) else None
    {
      ran := None;
      if h.None? || !h.value.accepts {
        task.state := TaskState.Failed;
        task.failure := Some(Configuration);
        task.finishedAt := Some(now);
        return;
      }
      ran := NextStrategy(h.value.strategies, task.attempted);
      match ending {
        case Finished(result) => task.Complete(result, now);
        case Errors(e) => task.Fail(e, Burned(h.value), h.value.strategies, now);
        case TimesOut => task.Fail(TIMEOUT_ERROR, Burned(h.value), h.value.strategies, now);
        case Crashes => task.Fail(UNEXPECTED_ERROR, Burned(h.value), h.value.strategies, now);
      }
    }
  }

  // ----- How a run of the worker ends -----

  /** A task is recorded as succeeded if and only if its handler took the payload and came to
      its end: then with that result and time, and with what earlier failures left. Every
      other ending of such a handler puts one more attempt on record and leaves the task to
      be retried, parked or failed; one that is not accepted at all fails as misconfigured. */
  lemma SucceedsIff(t: Task, h: Option<Handler>, ending: Ending, now: real)
    requires t.state.Running?
    ensures var n := Executing(t, h, ending, now); var accepted := h.Some? && h.value.accepts;
            && (n.state == Succeeded <==> accepted && ending.Finished?)
            && (n.state == Succeeded ==>
                  && n.result == Some(ending.result) && n.finishedAt == Some(now) && n.attempts == t.attempts
                  && n.attempted == t.attempted && n.failure == t.failure && n.maxAttempts == t.maxAttempts)
            && (accepted && !ending.Finished? ==>
                  && |n.attempts| == |t.attempts| + 1 && n.attempts[..|t.attempts|] == t.attempts
                  && n.attempts[|t.attempts|].failure ==
                     Some(if ending.Errors? then ending.error.category
                          else if ending.TimesOut? then TransientNetwork else Unknown)
                  && n.state in {Retrying, Blocked, TaskState.Failed})
            && (!accepted ==>
                  && n.state == TaskState.Failed && n.failure == Some(Configuration) && n.finishedAt == Some(now)
                  && n.attempts == t.attempts && n.attempted == t.attempted)
            && (n.state != Succeeded ==> n.result == t.result)
  {
  }

  /** What the row says after a failed attempt: when a retry may run, or when and of what it
      ended. */
  lemma FailureIsOnRecord(t: Task, e: AppError, strategy: Option<string>, available: seq<string>, now: real)
    ensures var n := Failing(t, e, strategy, available, now);
            && n.attempts == t.attempts + [Attempt(strategy, Some(e.category))]
            && (n.state == Retrying ==>
                  n.finishedAt == t.finishedAt && n.failure == t.failure && n.leaseExpires.None?)
            && (n.state != Retrying ==>
                  && n.finishedAt == Some(now) && n.failure == Some(e.category)
                  && n.scheduledFor == t.scheduledFor && n.leaseExpires == t.leaseExpires)
            && (n.state == Blocked <==>
                  || e.category in {AuthRequired, HumanChallenge, NeedsHuman}
                  || (e.category !in {ResourceGone, DuplicateAction, PolicyRefused, Storage, Configuration}
                      && |t.attempts| + 1 < t.maxAttempts && DecidedByHint(e) && e.recovery == EscalateToUser))
            && (e.category in {ResourceGone, DuplicateAction, PolicyRefused, Storage, Configuration} ==>
                  n.state == TaskState.Failed)
  {
    ParksIff(Recorded(t, e, strategy), e, available);
  }

  /** A handler that times out is retried while attempts are left, and one that breaks down in
      an unexpected way is parked for a human while they are; after that both end as failed. */
  lemma {:induction false} TimeoutsRetryCrashesPark(t: Task, h: Handler, now: real)
    requires h.accepts
    ensures var left := |t.attempts| + 1 < t.maxAttempts;
            && Executing(t, Some(h), TimesOut, now).state == (if left then Retrying else TaskState.Failed)
            && Executing(t, Some(h), Crashes, now).state == (if left then Blocked else TaskState.Failed)
  {
    RetriesIff(Recorded(t, TIMEOUT_ERROR, Burned(h)), TIMEOUT_ERROR, h.strategies);
    ParksIff(Recorded(t, TIMEOUT_ERROR, Burned(h)), TIMEOUT_ERROR, h.strategies);
    RetriesIff(Recorded(t, UNEXPECTED_ERROR, Burned(h)), UNEXPECTED_ERROR, h.strategies);
    ParksIff(Recorded(t, UNEXPECTED_ERROR, Burned(h)), UNEXPECTED_ERROR, h.strategies);
  }

  // ----- Budgets and schedules -----

  /** Whatever is decided, the attempt is on record and the strategy burned. */
  lemma FailingRecords(t: Task, e: AppError, strategy: Option<string>, available: seq<string>, now: real)
    ensures var n := Failing(t, e, strategy, available, now); var r := Recorded(t, e, strategy);
            n.attempts == r.attempts && n.attempted == r.attempted && n.maxAttempts == t.maxAttempts
            && |r.attempts| == |t.attempts| + 1
  {
  }

  lemma ExecutingRecords(t: Task, h: Handler, ending: Ending, now: real)
    requires h.accepts && !ending.Finished?
    ensures var n := Executing(t, Some(h), ending, now);
            |n.attempts| == |t.attempts| + 1 && n.maxAttempts == t.maxAttempts
  {
  }

  datatype Failure = Failure(error: AppError, strategy: Option<string>, available: seq<string>, now: real)

  function FailAll(t: Task, fs: seq<Failure>): Task {
    if fs == [] then t
    else
      var f := fs[|fs| - 1];
      Failing(FailAll(t, fs[..|fs| - 1]), f.error, f.strategy, f.available, f.now)
  }

  /** Every failure spends budget, and a task that is to be retried still has some: it
      leaves RETRYING after at most max(1, maxAttempts) recorded failures, whatever the
      errors, strategies and hints were. */
  lemma {:induction false} BudgetBoundsRetries(t: Task, fs: seq<Failure>)
    ensures var n := FailAll(t, fs); |n.attempts| == |t.attempts| + |fs| && n.maxAttempts == t.maxAttempts
    ensures fs != [] && FailAll(t, fs).state.Retrying? ==> |t.attempts| + |fs| < t.maxAttempts
  {
    if fs != [] {
      var f := fs[|fs| - 1];
      var past := FailAll(t, fs[..|fs| - 1]);
      BudgetBoundsRetries(t, fs[..|fs| - 1]);
      RetriesIff(Recorded(past, f.error, f.strategy), f.error, f.available);
    }
  }

  /** A retry is never scheduled before the backoff for the attempts made so far, which is
      between two seconds and five minutes, nor before an explicit cooldown. A zero delay
      falls back to the backoff as well, so even an immediate retry waits. */
  lemma RetryWaits(t: Task, e: AppError, strategy: Option<string>, available: seq<string>, now: real)
    requires Failing(t, e, strategy, available, now).state.Retrying?
    ensures var n := Failing(t, e, strategy, available, now);
            && n.scheduledFor >= now + BackoffAfter(|t.attempts| + 1) as real
            && now + 2.0 <= n.scheduledFor
            && (e.category.RateLimited? && e.retryAfter.Some? ==>
                  var backoff := BackoffAfter(|t.attempts| + 1) as real;
                  n.scheduledFor == now + if e.retryAfter.value > backoff then e.retryAfter.value else backoff)
            && (!e.category.RateLimited? || e.retryAfter.None? ==>
                  n.scheduledFor == now + BackoffAfter(|t.attempts| + 1) as real)
            && n.leaseExpires.None?
  {
    BackoffGrows(|t.attempts| + 1, |t.attempts| + 1);
    var r := Recorded(t, e, strategy);
    assert NextBackoff(r) >= 2.0;
  }

  // ----- Strategies, when each failure is recorded against the one that ran -----

  ghost predicate BurnedInOrder(t: Task, available: seq<string>) {
    exists k: nat :: k <= |Distinct(available)| && t.attempted == Distinct(available)[..k]
  }

  /** Burned strategies are a repetition-free prefix of the registered list, and the next
      pick is a strategy never tried before. */
  lemma {:induction false} RecordingWhatRanKeepsOrder(t: Task, e: AppError, available: seq<string>, now: real)
    requires BurnedInOrder(t, available) && "" !in available
    ensures var ran := NextStrategy(available, t.attempted);
            var n := Failing(t, e, ran, available, now);
            && BurnedInOrder(n, available)
            && (ran.Some? ==> ran.value !in t.attempted && n.attempted == t.attempted + [ran.value])
            && (ran.None? ==> n.attempted == t.attempted)
  {
    var d := Distinct(available);
    var k: nat :| k <= |d| && t.attempted == d[..k];
    PickIsNext(available, k);
    if k < |d| {
      assert d[..k + 1] == d[..k] + [d[k]];
    }
  }

  /** A series of failures, each recorded against the strategy that ran. */
  function After(t: Task, es: seq<AppError>, available: seq<string>, now: real): Task {
    if es == [] then t
    else
      var past := After(t, es[..|es| - 1], available, now);
      Failing(past, es[|es| - 1], NextStrategy(available, past.attempted), available, now)
  }

  /** After any series of n failures the next run uses the n-th distinct strategy, or none
      once they are used up: no strategy is ever tried twice. */
  lemma {:induction false} EachStrategyOnce(t: Task, es: seq<AppError>, available: seq<string>, now: real)
    requires t.attempted == [] && "" !in available
    ensures var n := After(t, es, available, now); var d := Distinct(available);
            && n.attempted == d[..if |es| < |d| then |es| else |d|]
            && NextStrategy(available, n.attempted) == if |es| < |d| then Some(d[|es|]) else None
  {
    var d := Distinct(available);
    var k := if |es| < |d| then |es| else |d|;
    if es == [] {
      assert d[..0] == [];
    } else {
      var before := es[..|es| - 1];
      EachStrategyOnce(t, before, available, now);
      var past := After(t, before, available, now);
      var ran := NextStrategy(available, past.attempted);
      FailingRecords(past, es[|es| - 1], ran, available, now);
      BurnNext(past.attempted, d, |before|);
    }
    PickIsNext(available, k);
  }

  lemma BurnNext(burned: seq<string>, d: seq<string>, n: nat)
    requires burned == d[..if n < |d| then n else |d|]
    requires forall i, j :: 0 <= i < j < |d| ==> d[i] != d[j]
    ensures n < |d| ==> d[n] !in burned && burned + [d[n]] == d[..n + 1]
  {
  }

  /** The strategy a retry announces is the one the next run picks. */
  lemma AnnouncedIsPicked(t: Task, e: AppError, ran: Option<string>, h: Handler, now: real)
    requires Decide(Recorded(t, e, ran), e, h.strategies).next.Some?
    ensures Failing(t, e, ran, h.strategies, now).state.Retrying?
    ensures Picked(h, Failing(t, e, ran, h.strategies, now)) == Decide(Recorded(t, e, ran), e, h.strategies).next
  {
  }

  // ----- Strategies, as the worker records them -----

  /** The worker records the first registered strategy. That is the one that ran exactly
      when there is none, or the first has not been recorded yet. */
  lemma WorkerRecordsWhatRanIff(h: Handler, t: Task)
    ensures Burned(h) == Picked(h, t) <==> h.strategies == [] || h.strategies[0] !in t.attempted
  {
    NextIsFirstUntried(h.strategies, t.attempted);
  }

  function WorkerRuns(t: Task, h: Handler, endings: seq<Ending>, now: real): (seq<Option<string>>, Task) {
    if endings == [] then ([], t)
    else
      var (ran, past) := WorkerRuns(t, h, endings[..|endings| - 1], now);
      (ran + [Picked(h, past)], Executing(past, Some(h), endings[|endings| - 1], now))
  }

  ghost predicate AllFail(endings: seq<Ending>) {
    forall i :: 0 <= i < |endings| ==> !endings[i].Finished?
  }

  /** A failed run of the worker burns the first strategy and no other. */
  lemma WorkerBurnsFirst(t: Task, h: Handler, ending: Ending, now: real)
    requires h.accepts && !ending.Finished? && h.strategies != [] && h.strategies[0] != ""
    ensures Executing(t, Some(h), ending, now).attempted ==
            if h.strategies[0] in t.attempted then t.attempted else t.attempted + [h.strategies[0]]
  {
  }

  /** So of any number of strategies only two are ever used: the first once, the second on
      every later attempt, and the third and all that follow never. */
  lemma {:induction false} OnlyTwoStrategiesRun(t: Task, h: Handler, endings: seq<Ending>, now: real)
    requires t.attempted == [] && h.accepts && "" !in h.strategies && |Distinct(h.strategies)| >= 2
    requires AllFail(endings)
    ensures var (ran, n) := WorkerRuns(t, h, endings, now); var d := Distinct(h.strategies);
            && |ran| == |endings|
            && (forall i :: 0 <= i < |endings| ==> ran[i] == Some(if i == 0 then d[0] else d[1]))
            && n.attempted == if endings == [] then [] else [d[0]]
  {
    if endings != [] {
      var d := Distinct(h.strategies);
      var past := endings[..|endings| - 1];
      OnlyTwoStrategiesRun(t, h, past, now);
      var before := WorkerRuns(t, h, past, now).1;
      FirstIsDistinct(h.strategies);
      assert before.attempted == if past == [] then d[..0] else d[..1];
      PickIsNext(h.strategies, if past == [] then 0 else 1);
      WorkerBurnsFirst(before, h, endings[|endings| - 1], now);
    }
  }

  /** The rule that gives up once every registered strategy has been tried therefore never
      ends a task with two or more of them: only the attempt budget does. */
  lemma {:induction false} ExhaustionNeverEnds(t: Task, h: Handler, endings: seq<Ending>, e: AppError, now: real)
    requires t.attempted == [] && h.accepts && "" !in h.strategies && |Distinct(h.strategies)| >= 2
    requires AllFail(endings) && NeedsStrategy(e.category)
    requires |t.attempts| + |endings| + 1 < t.maxAttempts
    ensures Executing(WorkerRuns(t, h, endings, now).1, Some(h), Errors(e), now).state.Retrying?
  {
    var past := WorkerRuns(t, h, endings, now).1;
    OnlyTwoStrategiesRun(t, h, endings, now);
    OnlyTwoStrategiesRun(t, h, endings + [Errors(e)], now);
    RunsCount(t, h, endings, now);
    var d := Distinct(h.strategies);
    assert (endings + [Errors(e)])[..|endings|] == endings;
    var r := Recorded(past, e, Burned(h));
    assert r.attempted == [d[0]];
    assert d[1] in h.strategies && d[1] !in r.attempted;
    RetriesIff(r, e, h.strategies);
  }

  lemma {:induction false} RunsCount(t: Task, h: Handler, endings: seq<Ending>, now: real)
    requires h.accepts && AllFail(endings)
    ensures var n := WorkerRuns(t, h, endings, now).1;
            |n.attempts| == |t.attempts| + |endings| && n.maxAttempts == t.maxAttempts
  {
    if endings != [] {
      var past := endings[..|endings| - 1];
      RunsCount(t, h, past, now);
      ExecutingRecords(WorkerRuns(t, h, past, now).1, h, endings[|endings| - 1], now);
    }
  }

  // ----- The life of one row -----

  /** What can happen to a task's row while one worker runs: the steps of the repository
      and of the worker that holds the claim. */
  datatype Event =
    | Claims(now: real, lease: real)
    | Executes(handler: Option<Handler>, ending: Ending, now: real)
    | LeaseLapses(now: real)
    | Requeues(now: real)

  function Step(t: Task, e: Event): Task {
    match e
    case Claims(now, lease) =>
      if t.state.Pending? && t.scheduledFor <= now then t.(state := Running, leaseExpires := Some(now + lease)) else t
    case Executes(h, ending, now) => if t.state.Running? then Executing(t, h, ending, now) else t
    case LeaseLapses(now) =>
      if t.state.Running? && t.leaseExpires.Some? && t.leaseExpires.value < now then
        t.(state := Pending, attempts := t.attempts + [Attempt(None, None)], leaseExpires := None, scheduledFor := now)
      else t
    case Requeues(now) => Requeuing(t, now)
  }

  function Life(t: Task, events: seq<Event>): Task {
    if events == [] then t else Step(Life(t, events[..|events| - 1]), events[|events| - 1])
  }

  /** A claim takes a row if and only if it is pending and due, and holds it for the time of
      its lease; a lease is taken back if and only if it has run out, at the cost of an
      attempt without a reason, and the row is due at once. */
  lemma ClaimsAre(t: Task, now: real, lease: real)
    ensures var n := Step(t, Claims(now, lease)); var due := t.state == Pending && t.scheduledFor <= now;
            n == if due then t.(state := Running, leaseExpires := Some(now + lease)) else t
    ensures var n := Step(t, LeaseLapses(now));
            var lapsed := t.state == Running && t.leaseExpires.Some? && t.leaseExpires.value < now;
            && (n != t ==> lapsed)
            && (lapsed ==>
                  && n.state == Pending && n.leaseExpires.None? && n.scheduledFor == now
                  && n.attempts == t.attempts + [Attempt(None, None)] && n.attempted == t.attempted
                  && n.maxAttempts == t.maxAttempts && n.finishedAt == t.finishedAt && n.failure == t.failure)
    ensures forall h, ending :: t.state == Running ==>
              Step(t, Executes(h, ending, now)) == Executing(t, h, ending, now)
    ensures forall h, ending :: t.state != Running ==> Step(t, Executes(h, ending, now)) == t
  {
  }

  /** Parking and requeueing keep what a retry would need: the attempts and the strategies
      tried. A requeued row can be claimed at once and shows no failure; a parked one cannot
      be claimed and shows when it was parked. */
  lemma {:induction false} ParkedAndRequeued(t: Task, now: real, later: real, lease: real)
    requires now <= later
    ensures var p := Parking(t, now);
            && p.state == Blocked && p.finishedAt == Some(now) && p == t.(state := p.state, finishedAt := p.finishedAt)
            && Step(p, Claims(later, lease)) == p
    ensures var r := Step(t, Requeues(now));
            && r.finishedAt.None? && r.failure.None?
            && r.attempts == t.attempts && r.attempted == t.attempted && r.maxAttempts == t.maxAttempts
            && r.leaseExpires.None? && r.scheduledFor == now && r.state == Pending
            && Step(r, Claims(later, lease)).state == Running
  {
  }

  /** A task that is queued, claimed when it is due and run to its end by a handler that takes
      its payload succeeds; one whose worker dies first is claimed again once its lease is up. */
  lemma QueuedTaskSucceeds(t: Task, h: Handler, result: string, now: real, lease: real, later: real)
    requires t.state.Pending? && t.scheduledFor <= now && h.accepts && now + lease < later
    ensures Life(t, [Claims(now, lease), Executes(Some(h), Finished(result), later)]).state == Succeeded
    ensures Life(t, [Claims(now, lease), LeaseLapses(later), Claims(later, lease)]).state == Running
  {
    var claim, lapse := Claims(now, lease), LeaseLapses(later);
    var run, again := Executes(Some(h), Finished(result), later), Claims(later, lease);
    assert [claim, run][..1] == [claim] && [claim][..0] == [];
    assert [claim, lapse, again][..2] == [claim, lapse] && [claim, lapse][..1] == [claim];
    assert Life(t, [claim]) == Step(Life(t, []), claim);
    assert Life(t, [claim, run]) == Step(Life(t, [claim]), run);
    assert Life(t, [claim, lapse]) == Step(Life(t, [claim]), lapse);
    assert Life(t, [claim, lapse, again]) == Step(Life(t, [claim, lapse]), again);
  }

  /** Claims take PENDING rows and nothing moves a RETRYING row there: a task that is to be
      retried stays exactly as it is until somebody requeues it, and no part of the
      program does. */
  lemma {:induction false} RetryNeverHappens(t: Task, events: seq<Event>)
    requires t.state.Retrying?
    requires forall i :: 0 <= i < |events| ==> !events[i].Requeues?
    ensures Life(t, events) == t
  {
    if events != [] {
      RetryNeverHappens(t, events[..|events| - 1]);
    }
  }

  /** Over a whole life of claims, runs, lapsed leases and requeues the record of attempts
      only grows, and a row that says RETRYING still has attempts left. */
  lemma {:induction false} RetryingHasBudget(events: seq<Event>, maxAttempts: int, now: real)
    ensures var t := Life(Task(Pending, [], maxAttempts, [], now, None, None, None, None), events);
            t.maxAttempts == maxAttempts && (t.state.Retrying? ==> 1 <= |t.attempts| < maxAttempts)
  {
    if events != [] {
      var start := Task(Pending, [], maxAttempts, [], now, None, None, None, None);
      var past := Life(start, events[..|events| - 1]);
      RetryingHasBudget(events[..|events| - 1], maxAttempts, now);
      var e := events[|events| - 1];
      if e.Executes? && e.handler.Some? && !e.ending.Finished? {
        var error := if e.ending.Errors? then e.ending.error else if e.ending.TimesOut? then TIMEOUT_ERROR
                     else UNEXPECTED_ERROR;
        var h := e.handler.value;
        RetriesIff(Recorded(past, error, Burned(h)), error, h.strategies);
      }
    }
  }
}

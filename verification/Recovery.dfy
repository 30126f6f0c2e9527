/** What to do after a task attempt fails. Pure: a task and an error in, a decision out. */
module Recovery {
  import opened Wrappers
  import opened TaskModel
  import opened Powers
  import opened Lists

  datatype Category =
    | ExtractionDrift | EndpointUnavailable | TransientNetwork | RateLimited | AuthRequired
    | AutomationBlocked | HumanChallenge | BackendUnavailable | InvalidModelOutput | ResourceGone
    | DuplicateAction | Configuration | Storage | NeedsHuman | PolicyRefused | Unknown

  datatype Hint = Retry | RetryAfterBackoff | TryAlternativeStrategy | Degrade | EscalateToUser | Abort

  datatype AppError = AppError(category: Category, recovery: Hint, retryAfter: Option<real>)

  datatype Attempt = Attempt(strategy: Option<string>, failure: Option<Category>)

  /** Times are seconds. */
  datatype Task = Task(
    state: TaskState,
    attempts: seq<Attempt>,
    maxAttempts: int,
    attempted: seq<string>,
    scheduledFor: real,
    leaseExpires: Option<real>,
    finishedAt: Option<real>,
    failure: Option<Category>,
    result: Option<string>)

  datatype Decision = Decision(action: TaskState, delay: real, next: Option<string>)

  predicate Blocking(c: Category) {
    c.AuthRequired? || c.HumanChallenge? || c.NeedsHuman?
  }

  predicate Terminal(c: Category) {
    c.ResourceGone? || c.DuplicateAction? || c.PolicyRefused? || c.Storage? || c.Configuration?
  }

  predicate NeedsStrategy(c: Category) {
    c.ExtractionDrift? || c.AutomationBlocked? || c.EndpointUnavailable? || c.BackendUnavailable?
  }

  const MAX_INVALID_OUTPUT_ATTEMPTS := 2
  const BACKOFF_BASE := 2
  const BACKOFF_CAP := 300

  function BackoffAfter(attempts: nat): nat {
    var doubled := BACKOFF_BASE * Pow2(if attempts == 0 then 0 else attempts - 1);
    if doubled < BACKOFF_CAP then doubled else BACKOFF_CAP
  }

  function NextBackoff(t: Task): real {
    BackoffAfter(|t.attempts|) as real
  }

  ghost predicate FirstUntried(available: seq<string>, attempted: seq<string>, i: nat) {
    i < |available| && available[i] !in attempted && forall j :: 0 <= j < i ==> available[j] in attempted
  }

  /** The first of `available` that has not been tried. */
  function NextStrategy(available: seq<string>, attempted: seq<string>): Option<string> {
    if available == [] then None
    else if available[0] !in attempted then Some(available[0])
    else NextStrategy(available[1..], attempted)
  }

  lemma {:induction false} NextIsFirstUntried(available: seq<string>, attempted: seq<string>)
    ensures var r := NextStrategy(available, attempted);
            && (r.None? <==> forall x :: x in available ==> x in attempted)
            && (r.Some? ==> exists i: nat :: FirstUntried(available, attempted, i) && available[i] == r.value)
  {
    if available != [] {
      if available[0] !in attempted {
        assert FirstUntried(available, attempted, 0);
      } else {
        NextIsFirstUntried(available[1..], attempted);
        LaterIsFirst(available, attempted);
      }
    }
  }

  lemma LaterIsFirst(available: seq<string>, attempted: seq<string>)
    requires available != [] && available[0] in attempted
    ensures forall i: nat :: FirstUntried(available[1..], attempted, i) ==> FirstUntried(available, attempted, i + 1)
  {
    forall i: nat | FirstUntried(available[1..], attempted, i) ensures FirstUntried(available, attempted, i + 1) {
      forall j | 0 <= j < i + 1 ensures available[j] in attempted {
        if j > 0 {
          assert available[1..][j - 1] in attempted;
        }
      }
    }
  }

  const STOP: Decision := Decision(TaskState.Failed, 0.0, None)
  const PARK: Decision := Decision(Blocked, 0.0, None)

  function HardRule(e: AppError): Option<Decision> {
    if Blocking(e.category) then Some(PARK)
    else if Terminal(e.category) then Some(STOP)
    else None
  }

  function LoopGuard(t: Task): Option<Decision> {
    if |t.attempts| >= t.maxAttempts then Some(STOP) else None
  }

  function StrategyDecision(t: Task, alternative: Option<string>): Decision {
    if alternative.None? then STOP else Decision(Retrying, NextBackoff(t), alternative)
  }

  function InvalidOutputDecision(t: Task): Decision {
    if |t.attempts| >= MAX_INVALID_OUTPUT_ATTEMPTS then STOP else Decision(Retrying, NextBackoff(t), None)
  }

  function RateLimitDelay(t: Task, e: AppError): real {
    if e.retryAfter.None? then NextBackoff(t)
    else if NextBackoff(t) >= e.retryAfter.value then NextBackoff(t) else e.retryAfter.value
  }

  function CategoryRule(t: Task, e: AppError, alternative: Option<string>): Option<Decision> {
    if NeedsStrategy(e.category) then Some(StrategyDecision(t, alternative))
    else if e.category.InvalidModelOutput? then Some(InvalidOutputDecision(t))
    else if e.category.RateLimited? then Some(Decision(Retrying, RateLimitDelay(t, e), None))
    else None
  }

  function HintRule(t: Task, e: AppError, alternative: Option<string>): Decision {
    match e.recovery
    case Retry => Decision(Retrying, 0.0, None)
    case RetryAfterBackoff => Decision(Retrying, NextBackoff(t), None)
    case TryAlternativeStrategy => StrategyDecision(t, alternative)
    case Degrade => StrategyDecision(t, alternative)
    case EscalateToUser => PARK
    case Abort => STOP
  }

  function Decide(t: Task, e: AppError, available: seq<string>): Decision {
    var alternative := NextStrategy(available, t.attempted);
    var hard := HardRule(e);
    if hard.Some? then hard.value
    else
      var guard := LoopGuard(t);
      if guard.Some? then guard.value
      else
        var specific := CategoryRule(t, e, alternative);
        if specific.Some? then specific.value else HintRule(t, e, alternative)
  }

  // ----- Properties -----

  /** An error whose retry means another approach: by category, or by hint where the
      category says nothing. */
  predicate SwitchesStrategy(e: AppError) {
    || NeedsStrategy(e.category)
    || (!e.category.InvalidModelOutput? && !e.category.RateLimited?
        && (e.recovery.TryAlternativeStrategy? || e.recovery.Degrade?))
  }

  predicate DecidedByHint(e: AppError) {
    !NeedsStrategy(e.category) && !e.category.InvalidModelOutput? && !e.category.RateLimited?
  }

  ghost predicate Untried(available: seq<string>, attempted: seq<string>) {
    exists x :: x in available && x !in attempted
  }

  /** Exactly when a failed task is tried again. */
  lemma RetriesIff(t: Task, e: AppError, available: seq<string>)
    ensures Decide(t, e, available).action.Retrying? <==>
            && !Blocking(e.category) && !Terminal(e.category)
            && |t.attempts| < t.maxAttempts
            && (SwitchesStrategy(e) ==> Untried(available, t.attempted))
            && (e.category.InvalidModelOutput? ==> |t.attempts| < MAX_INVALID_OUTPUT_ATTEMPTS)
            && (DecidedByHint(e) ==> !e.recovery.EscalateToUser? && !e.recovery.Abort?)
  {
    NextIsFirstUntried(available, t.attempted);
  }

  /** Exactly when it is parked for a human. An escalation past the attempt budget is not:
      the budget is looked at first. */
  lemma ParksIff(t: Task, e: AppError, available: seq<string>)
    ensures Decide(t, e, available).action.Blocked? <==>
            || Blocking(e.category)
            || (!Terminal(e.category) && |t.attempts| < t.maxAttempts && DecidedByHint(e) && e.recovery.EscalateToUser?)
    ensures var a := Decide(t, e, available).action; a.Retrying? || a.Failed? || a.Blocked?
  {
  }

  lemma {:induction false} BackoffGrows(n: nat, m: nat)
    requires n <= m
    ensures 2 <= BackoffAfter(n) <= BackoffAfter(m) <= 300
    ensures BackoffAfter(m) == 300 || n == 0 || m == n || BackoffAfter(m) >= 2 * BackoffAfter(n)
    ensures n >= 9 ==> BackoffAfter(n) == 300
    decreases m - n
  {
    PowGrows(if n == 0 then 0 else n - 1, if m == 0 then 0 else m - 1);
    if n >= 9 {
      PowGrows(8, n - 1);
      assert Pow2(8) == 256;
    }
  }

  /** The backoff is two seconds after the first attempt and doubles with every further one,
      up to five minutes. */
  lemma BackoffDoubles(n: nat)
    ensures BackoffAfter(0) == 2 && BackoffAfter(1) == 2
    ensures n >= 1 ==> BackoffAfter(n + 1) == if 2 * BackoffAfter(n) < 300 then 2 * BackoffAfter(n) else 300
  {
    if n >= 1 {
      PowGrows(n - 1, n);
    }
  }

  /** Output of a model that does not parse is retried once. */
  lemma InvalidOutputTwice(t: Task, e: AppError, available: seq<string>)
    requires e.category.InvalidModelOutput?
    ensures Decide(t, e, available).action.Retrying? <==> |t.attempts| < t.maxAttempts && |t.attempts| <= 1
  {
  }

  /** After the first k distinct strategies are burned, the next one is the k-th. */
  lemma PickIsNext(available: seq<string>, k: nat)
    requires k <= |Distinct(available)|
    ensures var d := Distinct(available);
            NextStrategy(available, d[..k]) == if k < |d| then Some(d[k]) else None
  {
    var d := Distinct(available);
    var r := NextStrategy(available, d[..k]);
    NextIsFirstUntried(available, d[..k]);
    if k < |d| {
      var i := DistinctAt(available, k);
      assert available[i] == d[k] && d[k] !in d[..k];
      var j: nat :| FirstUntried(available, d[..k], j) && available[j] == r.value;
      assert j == i;
    } else {
      assert d[..k] == d;
    }
  }
}

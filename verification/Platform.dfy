/** Everything outside the process that one run touches: the attempt's row, its
    queued tasks and the browser session.

    Each awaited call consumes one entry of `script`, which says what the
    environment does at that await: answer, fail after taking effect, or die
    before taking effect. An exhausted script is a process that died. Quantifying
    over scripts therefore covers a crash at every await.
 */
module Platform {
  import opened Wrappers
  import opened Execution
  import TaskModel
  import Text

  type TaskState = TaskModel.TaskState

  datatype Owner = Agent | DelegatedToUser | User

  datatype PageCondition =
    | PageOk | LoginRequired | AutomationBlockedPage | HumanChallenge | ValidationError
    | NotFound | RateLimited | DialogOpen | UnknownPage

  predicate NeedsHandoff(c: PageCondition) {
    c.LoginRequired? || c.AutomationBlockedPage? || c.HumanChallenge?
  }

  datatype Element = Element(locator: string, isButton: bool, isFileInput: bool, caption: Option<string>)

  datatype Question = Question(key: string, legal: bool, locator: Option<string>)

  datatype Page = Page(
    url: string,
    condition: PageCondition,
    text: Option<string>,
    elements: seq<Element>,
    questions: seq<Question>)

  /** What the questionnaire policy says about one question. */
  datatype Decision = Decision(draft: AnswerDraft, paused: bool) {
    predicate Stops() {
      paused && (draft.status.NeedsReview? || draft.status.NeedsUser?)
    }
  }

  /** What a driver may read. `decide` is the questionnaire policy bound to a
      profile, `isSubmit` is the driver's matcher, `now` the clock of the run. */
  datatype DriverContext = DriverContext(
    mode: ExecutionMode,
    decide: Question -> Decision,
    resume: Option<string>,
    isSubmit: Element -> bool,
    applyUrl: string,
    now: int)

  datatype Reply =
    | Crash
    | Broken
    | Reply(owner: Owner, page: Page, ok: bool, name: Option<string>)

  datatype Effect =
    | Committed(row: Attempt)
    | Began(context: DriverContext)
    | OwnerRead(owner: Owner)
    | Navigated(url: string)
    | PageRead(page: Page)
    | Filled(locator: string, value: string)
    | Uploaded(locator: string, path: string)
    | Clicked(locator: string, key: string)
    | SessionCreated(requested: string)
    | ReclaimRequested
    | ReclaimAnswered(ok: bool)
    | HandoffRequested

  /** The effects so far, latest last. */
  datatype Trace = Nothing | Then(past: Trace, effect: Effect)

  /** The number of submit clicks issued. */
  ghost function Clicks(t: Trace): nat {
    match t
    case Nothing => 0
    case Then(past, e) => Clicks(past) + if e.Clicked? then 1 else 0
  }

  /** `u` continues `t`. */
  ghost predicate Extends(t: Trace, u: Trace) {
    u == t || (u.Then? && Extends(t, u.past))
  }

  /** What the latest driver run in a trace has learnt so far. */
  datatype RunView = NoRun | RunView(context: DriverContext, owner: Option<Owner>, page: Option<Page>)

  ghost function Observe(v: RunView, e: Effect): RunView {
    match e
    case Began(c) => RunView(c, None, None)
    case OwnerRead(o) => if v.RunView? then v.(owner := Some(o)) else v
    case PageRead(p) => if v.RunView? then v.(page := Some(p)) else v
    case _ => v
  }

  ghost function View(t: Trace): RunView {
    match t
    case Nothing => NoRun
    case Then(past, e) => Observe(View(past), e)
  }

  ghost predicate Unpaused(p: Page, c: DriverContext) {
    forall q :: q in p.questions ==> !c.decide(q).Stops()
  }

  function FirstSubmit(elements: seq<Element>, isSubmit: Element -> bool): (r: Option<Element>)
    ensures r.Some? ==> r.value in elements && isSubmit(r.value)
    ensures r.None? ==> forall e :: e in elements ==> !isSubmit(e)
  {
    if elements == [] then None
    else if isSubmit(elements[0]) then Some(elements[0])
    else FirstSubmit(elements[1..], isSubmit)
  }

  function SubmitKey(id: string): string {
    "application-attempt:" + id + ":submit"
  }

  /** The click `e` was issued right after the row with the marker was committed, by
      a run that had read AGENT ownership, a page needing no human and pausing on
      no question, in the autonomous mode, on that page's submit control. */
  ghost predicate Permitted(t: Trace, e: Effect)
    requires e.Clicked?
  {
    && t.Then?
    && t.effect.Committed?
    && t.effect.row.submissionAttemptedAt.Some?
    && e.key == SubmitKey(t.effect.row.id)
    && var v := View(t);
    && v.RunView?
    && v.owner == Some(Agent)
    && v.page.Some?
    && v.context.mode.AutonomousSubmit?
    && !NeedsHandoff(v.page.value.condition)
    && Unpaused(v.page.value, v.context)
    && var submit := FirstSubmit(v.page.value.elements, v.context.isSubmit);
    && submit.Some?
    && e.locator == submit.value.locator
  }

  /** The latest run may touch the form: it has read AGENT ownership and a page that needs no
      human and pauses on no question, in one of the two modes that fill. */
  ghost predicate Touchable(v: RunView) {
    && v.RunView? && v.owner == Some(Agent) && v.page.Some?
    && v.context.mode in {FillNoSubmit, AutonomousSubmit}
    && !NeedsHandoff(v.page.value.condition) && Unpaused(v.page.value, v.context)
  }

  /** Every click, every filled field and every upload of a trace was permitted by what
      preceded it. */
  ghost predicate Guarded(t: Trace) {
    match t
    case Nothing => true
    case Then(past, e) =>
      && Guarded(past)
      && (e.Clicked? ==> Permitted(past, e))
      && (e.Filled? || e.Uploaded? ==> Touchable(View(past)))
  }

  datatype World = World(script: seq<Reply>, trace: Trace, durable: Attempt, tasks: seq<TaskState>) {
    function Next(): Reply {
      if script == [] then Crash else script[0]
    }

    function Advance(): World {
      if script == [] then this else this.(script := script[1..])
    }

    function Emit(e: Effect): World {
      this.(trace := Then(trace, e))
    }

    function ReadOwner(): Io<Owner> {
      var w := Advance();
      if Next().Reply? then Done(w.Emit(OwnerRead(Next().owner)), Next().owner) else Raised(w)
    }

    function ObservePage(): Io<Page> {
      var w := Advance();
      if Next().Reply? then Done(w.Emit(PageRead(Next().page)), Next().page) else Raised(w)
    }

    function Navigate(url: string): Io<Page> {
      var w := Advance();
      match Next()
      case Crash => Raised(w)
      case Broken => Raised(w.Emit(Navigated(url)))
      case Reply(_, page, _, _) => Done(w.Emit(Navigated(url)).Emit(PageRead(page)), page)
    }

    /** A call whose effect is recorded whether or not its answer arrives. */
    function Act(e: Effect): Io<bool> {
      var w := Advance();
      match Next()
      case Crash => Raised(w)
      case Broken => Raised(w.Emit(e))
      case Reply(_, _, ok, _) => Done(w.Emit(e), ok)
    }

    /** Asking for control back: the request takes effect, then its answer arrives. */
    function AskForControl(): Io<bool> {
      var w := Advance();
      match Next()
      case Crash => Raised(w)
      case Broken => Raised(w.Emit(ReclaimRequested))
      case Reply(_, _, ok, _) => Done(w.Emit(ReclaimRequested).Emit(ReclaimAnswered(ok)), ok)
    }

    /** Opening a session answers with the name the host really opened. */
    function CreateSession(requested: string): Io<Option<string>> {
      var w := Advance();
      match Next()
      case Crash => Raised(w)
      case Broken => Raised(w.Emit(SessionCreated(requested)))
      case Reply(_, _, ok, name) => Done(w.Emit(SessionCreated(requested)), if ok then name else None)
    }

    /** A call that only answers yes or no and touches neither the page nor the row. */
    function Ask(): Io<Option<string>> {
      var w := Advance();
      match Next()
      case Reply(_, _, ok, name) => Done(w, if ok then name else None)
      case _ => Raised(w)
    }

    /** Commit the row and the queue together. `Broken` is a commit that succeeded
        although the caller saw an error. */
    function Commit(a: Attempt, queue: seq<TaskState>): Io<()> {
      var w := Advance();
      match Next()
      case Crash => Raised(w)
      case Broken => Raised(w.Emit(Committed(a)).(durable := a, tasks := queue))
      case Reply(_, _, _, _) => Done(w.Emit(Committed(a)).(durable := a, tasks := queue), ())
    }
  }

  /** The result of awaited code: it raised, or it finished with a value. Either
      way the world is left as it says. */
  datatype Io<+T> = Raised(world: World) | Done(world: World, value: T) {
    predicate IsFailure() {
      Raised?
    }

    function PropagateFailure<U>(): Io<U>
      requires Raised?
    {
      Raised(world)
    }

    function Extract(): (World, T)
      requires Done?
    {
      (world, value)
    }
  }

  /** A method that ended in world `w` with result `r` did what `io` says; no result
      means that the awaited code raised. */
  ghost predicate Matches<T>(io: Io<T>, w: World, r: Option<T>) {
    match io
    case Raised(x) => w == x && r.None?
    case Done(x, v) => w == x && r == Some(v)
  }

  class Connection {
    var script: seq<Reply>
    var trace: Trace
    var durable: Attempt
    var tasks: seq<TaskState>

    function Value(): World
      reads this
    {
      World(script, trace, durable, tasks)
    }

    constructor (w: World)
      ensures Value() == w
    {
      script, trace, durable, tasks := w.script, w.trace, w.durable, w.tasks;
    }

    method Await() returns (r: Reply)
      modifies this
      ensures r == old(Value()).Next() && Value() == old(Value()).Advance()
    {
      if script == [] {
        r := Crash;
      } else {
        r := script[0];
        script := script[1..];
      }
    }

    method Emit(e: Effect)
      modifies this
      ensures Value() == old(Value()).Emit(e)
    {
      trace := Then(trace, e);
    }

    method ReadOwner() returns (r: Option<Owner>)
      modifies this
      ensures Matches(old(Value()).ReadOwner(), Value(), r)
    {
      var reply := Await();
      if !reply.Reply? {
        return None;
      }
      Emit(OwnerRead(reply.owner));
      r := Some(reply.owner);
    }

    method ObservePage() returns (r: Option<Page>)
      modifies this
      ensures Matches(old(Value()).ObservePage(), Value(), r)
    {
      var reply := Await();
      if !reply.Reply? {
        return None;
      }
      Emit(PageRead(reply.page));
      r := Some(reply.page);
    }

    method Navigate(url: string) returns (r: Option<Page>)
      modifies this
      ensures Matches(old(Value()).Navigate(url), Value(), r)
    {
      var reply := Await();
      if reply.Crash? {
        return None;
      }
      Emit(Navigated(url));
      if reply.Broken? {
        return None;
      }
      Emit(PageRead(reply.page));
      r := Some(reply.page);
    }

    method Act(e: Effect) returns (r: Option<bool>)
      modifies this
      ensures Matches(old(Value()).Act(e), Value(), r)
    {
      var reply := Await();
      if reply.Crash? {
        return None;
      }
      Emit(e);
      r := if reply.Broken? then None else Some(reply.ok);
    }

    method AskForControl() returns (r: Option<bool>)
      modifies this
      ensures Matches(old(Value()).AskForControl(), Value(), r)
    {
      var reply := Await();
      if reply.Crash? {
        return None;
      }
      Emit(ReclaimRequested);
      if reply.Broken? {
        return None;
      }
      Emit(ReclaimAnswered(reply.ok));
      r := Some(reply.ok);
    }

    method CreateSession(requested: string) returns (r: Option<Option<string>>)
      modifies this
      ensures Matches(old(Value()).CreateSession(requested), Value(), r)
    {
      var reply := Await();
      if reply.Crash? {
        return None;
      }
      Emit(SessionCreated(requested));
      if reply.Broken? {
        return None;
      }
      r := Some(if reply.ok then reply.name else None);
    }

    method Ask() returns (r: Option<Option<string>>)
      modifies this
      ensures Matches(old(Value()).Ask(), Value(), r)
    {
      var reply := Await();
      if !reply.Reply? {
        return None;
      }
      r := Some(if reply.ok then reply.name else None);
    }

    method Commit(a: Attempt, queue: seq<TaskState>) returns (r: Option<()>)
      modifies this
      ensures Matches(old(Value()).Commit(a, queue), Value(), r)
    {
      var reply := Await();
      if reply.Crash? {
        return None;
      }
      Emit(Committed(a));
      durable := a;
      tasks := queue;
      r := if reply.Broken? then None else Some(());
    }
  }
}

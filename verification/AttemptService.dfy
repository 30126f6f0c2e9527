/** Starting, binding, resolving and running attempts, one service call at a time. */
module AttemptService {
  import opened Wrappers
  import opened Execution
  import opened Platform
  import opened Runner
  import TaskModel

  /** The connected hosts and the sessions each holds open; `None` when there is no manager. */
  type Hosts = Option<map<string, set<string>>>

  predicate IsConnected(hosts: Hosts, host: Option<string>) {
    hosts.Some? && Present(host) && host.value in hosts.value
  }

  // ----- The task queue, as one attempt's key sees it -----

  predicate AnyLive(tasks: seq<TaskState>) {
    exists i :: 0 <= i < |tasks| && TaskModel.Live(tasks[i])
  }

  /** `TaskRepository.enqueue`: a live task with the key is reused, and exactly one pending
      task is added when there is none. */
  function Enqueue(tasks: seq<TaskState>): (r: seq<TaskState>)
    ensures AnyLive(tasks) <==> r == tasks
    ensures !AnyLive(tasks) <==> r == tasks + [TaskState.Pending]
    ensures AnyLive(r)
  {
    if AnyLive(tasks) then tasks
    else
      assert TaskModel.Live((tasks + [TaskState.Pending])[|tasks|]);
      tasks + [TaskState.Pending]
  }

  // ----- Binding a session -----

  /** Host and session that presence, reclaim and bind must all agree on. */
  function Target(a: Attempt, i: Option<nat>): (Option<string>, Option<string>)
    requires i.Some? ==> i.value < |a.interventions|
  {
    if i.None? then (a.host, a.session)
    else (OrElse(a.interventions[i.value].host, a.host), OrElse(a.interventions[i.value].session, a.session))
  }

  function Adopt(a: Attempt, i: Option<nat>, host: string, session: string): Attempt
    requires i.Some? ==> i.value < |a.interventions|
  {
    var a := a.(host := Some(host), session := Some(session));
    var target := if i.Some? then i else a.PendingIntervention();
    if target.None? then a
    else a.(interventions :=
              a.interventions[target.value :=
                a.interventions[target.value].(host := Some(host), session := Some(session))])
  }

  /** Ask the host for a session and commit its identity before anyone may use it. */
  function OpenSession(w: World, a: Attempt, i: Option<nat>, host: string, requested: string): Io<(Attempt, bool)>
    requires i.Some? ==> i.value < |a.interventions|
    ensures var io := OpenSession(w, a, i, host, requested); io.Done? ==>
            |io.value.0.interventions| == |a.interventions|
  {
    var (w, name) :- w.CreateSession(requested);
    if !Present(name) then Done(w, (a, false))
    else
      var a := Adopt(a, i, host, name.value);
      var (w, _) :- w.Commit(a, w.tasks);
      Done(w, (a, true))
  }

  function BindSession(w: World, a: Attempt, hosts: Hosts, i: Option<nat>): Io<(Attempt, bool)>
    requires i.Some? ==> i.value < |a.interventions|
    ensures var io := BindSession(w, a, hosts, i); io.Done? ==> |io.value.0.interventions| == |a.interventions|
  {
    var (host, session) := Target(a, i);
    if !IsConnected(hosts, host) then Done(w, (a, false))
    else if Present(session) && session.value in hosts.value[host.value] then Done(w, (a, true))
    else OpenSession(w, a, i, host.value, if Present(session) then session.value else a.id)
  }

  // ----- Resolving an intervention -----

  datatype Resolved = NotFound | AlreadyClosed | Kept | CancelledByUser | StillOpen | Queued

  function GiveAnswer(answers: seq<AnswerDraft>, key: string, text: string): (r: seq<AnswerDraft>)
    ensures |r| == |answers|
    ensures forall k :: 0 <= k < |r| ==>
              r[k] == if answers[k].key == key then AnswerDraft(key, Some(text), UserProvided) else answers[k]
  {
    if answers == [] then []
    else
      var first := if answers[0].key == key then AnswerDraft(key, Some(text), UserProvided) else answers[0];
      [first] + GiveAnswer(answers[1..], key, text)
  }

  function TakeAnswer(a: Attempt, i: nat, r: Resolution, answer: Option<string>): Attempt
    requires i < |a.interventions|
  {
    if r.Answer? && Present(answer) && a.interventions[i].questionKey.Some? then
      a.(answers := GiveAnswer(a.answers, a.interventions[i].questionKey.value, answer.value))
    else a
  }

  /** Ask for control, then check who really has it. */
  function TakeBack(w: World, a: Attempt): Io<(Attempt, bool)>
    ensures var io := TakeBack(w, a); io.Done? ==> |io.value.0.interventions| == |a.interventions|
  {
    var (w, ok) :- w.AskForControl();
    if !ok then Done(w, (a.RecordEvent(ReclaimFailed), false))
    else
      var (w, owner) :- w.ReadOwner();
      if owner.Agent? then Done(w, (a, true)) else Done(w, (a.RecordEvent(ReclaimFailed), false))
  }

  /** Take the browser back before a worker may act. */
  function Reclaim(w: World, a: Attempt, i: nat, hosts: Hosts): Io<(Attempt, bool)>
    requires i < |a.interventions|
    ensures var io := Reclaim(w, a, i, hosts); io.Done? ==> |io.value.0.interventions| == |a.interventions|
  {
    if !a.interventions[i].handoff then Done(w, (a, true))
    else
      var (host, session) := Target(a, Some(i));
      if !IsConnected(hosts, host) then Done(w, (a.RecordEvent(ReclaimFailed), false))
      else
        var (w, bound) :- BindSession(w, a.(host := host, session := session), hosts, Some(i));
        if !bound.1 then Done(w, (bound.0.RecordEvent(ReclaimFailed), false)) else TakeBack(w, bound.0)
  }

  predicate Resumes(r: Resolution) {
    !r.KeepControl? && !r.SkipApplication? && !r.Cancel?
  }

  /** Close the intervention and queue the resume in one commit, or leave both alone. */
  function Settle(w: World, a: Attempt, i: nat, r: Resolution, ours: bool): Io<Resolved>
    requires i < |a.interventions|
  {
    if !ours then
      var (w, _) :- w.Commit(a, w.tasks);
      Done(w, StillOpen)
    else
      var a := a.ResolveIntervention(i, r).(state := WorkflowState.Pending).RecordEvent(Resumed);
      var (w, _) :- w.Commit(a, Enqueue(w.tasks));
      Done(w, Queued)
  }

  function Resume(w: World, a: Attempt, i: nat, r: Resolution, answer: Option<string>, hosts: Hosts): Io<Resolved>
    requires i < |a.interventions|
  {
    var (w, reclaimed) :- Reclaim(w, TakeAnswer(a, i, r, answer), i, hosts);
    Settle(w, reclaimed.0, i, r, reclaimed.1)
  }

  function Resolve(w: World, i: nat, r: Resolution, answer: Option<string>, hosts: Hosts, now: int): Io<Resolved> {
    var a := w.durable;
    if i >= |a.interventions| then Done(w, Resolved.NotFound)
    else if !a.interventions[i].IsOpen() && !r.KeepControl? then Done(w, AlreadyClosed)
    else if r.KeepControl? then
      var (w, _) :- w.Commit(a.RecordEvent(ControlKept).(state := WaitingForHuman), w.tasks);
      Done(w, Kept)
    else if r.SkipApplication? || r.Cancel? then
      var (w, _) :- w.Commit(a.ResolveIntervention(i, r).Cancelled(now), w.tasks);
      Done(w, CancelledByUser)
    else Resume(w, a, i, r, answer, hosts)
  }

  // ----- Running the attempt's task -----

  /** What surrounds one run: whether the job still exists, whether a driver claims its
      URL, the live hosts, and what the driver may read. */
  datatype RunEnv = RunEnv(
    jobFound: bool,
    driverFound: bool,
    needsHandoff: bool,
    hosts: Hosts,
    context: DriverContext)

  datatype Acquired = Paused(attempt: Attempt) | Ready(attempt: Attempt)

  function PauseForBrowser(a: Attempt, handoff: bool): Acquired {
    Paused(a.OpenIntervention(UserReview, handoff, None))
  }

  /** A local backend is selected once and then acquired; either step may refuse. */
  function Acquire(w: World, a: Attempt, env: RunEnv): Io<Acquired> {
    if a.backend.None? && !env.driverFound then Done(w, PauseForBrowser(a, false))
    else
      var (w, backend) :- if a.backend.Some? then Done(w, a.backend) else w.Ask();
      if backend.None? then Done(w, PauseForBrowser(a, env.needsHandoff))
      else
        var a := if a.backend.Some? then a else a.(backend := backend).RecordEvent(BrowserSelected);
        var (w, session) :- w.Ask();
        if session.None? then Done(w, PauseForBrowser(a, env.needsHandoff))
        else Done(w, Ready(a.(session := Some(a.id))))
  }

  function RunStep(w: World, a: Attempt, env: RunEnv): Io<()> {
    if !env.driverFound then w.Commit(a.(state := WorkflowState.Failed), w.tasks)
    else
      var (w, ran) :- RunForm(w, a, env.context.(mode := a.mode));
      var (a, kind) := ran;
      w.Commit(if kind.Waiting? then a.(state := WaitingForHuman) else a, w.tasks)
  }

  function RunTask(w: World, env: RunEnv): Io<()> {
    var a := w.durable;
    if !env.jobFound then w.Commit(a.(state := WorkflowState.Failed), w.tasks)
    else
      var (w, bound) :- BindSession(w, a, env.hosts, None);
      var (a, attached) := bound;
      var (w, acquired) :- if attached then Done(w, Ready(a)) else Acquire(w, a, env);
      match acquired
      case Paused(a) => w.Commit(a, w.tasks)
      case Ready(a) => RunStep(w, a, env)
  }

  // ----- Handing the browser to a human -----

  datatype HostPresence = HostConnected | HostOffline | SessionUnavailable | NotRequired

  function Presence(a: Attempt, i: nat, hosts: Hosts): HostPresence
    requires i < |a.interventions|
  {
    if !a.interventions[i].handoff then NotRequired
    else
      var (host, session) := Target(a, Some(i));
      if !Present(host) then SessionUnavailable
      else if !IsConnected(hosts, host) then HostOffline
      else if Present(session) && session.value !in hosts.value[host.value] then SessionUnavailable
      else HostConnected
  }

  /** The intervention a human is sent to: the open one, else the latest. */
  function ShownItem(a: Attempt): (i: nat)
    requires a.interventions != []
    ensures i < |a.interventions|
    ensures a.interventions[i].IsOpen() || a.PendingIntervention().None?
  {
    var pending := a.PendingIntervention();
    if pending.Some? then pending.value else |a.interventions| - 1
  }

  function Surface(w: World, a: Attempt, i: nat, hosts: Hosts): Io<bool>
    requires i < |a.interventions|
  {
    var presence := Presence(a, i, hosts);
    if presence.HostOffline? || presence.SessionUnavailable? then Done(w, false)
    else
      var (w, bound) :- BindSession(w, a, hosts, Some(i));
      if !bound.1 then Done(w, false) else w.Act(HandoffRequested)
  }

  /** `activate_browser`: surface the session for a human. */
  function OpenBrowser(w: World, hosts: Hosts): Io<bool> {
    if w.durable.interventions == [] then Done(w, false)
    else Surface(w, w.durable, ShownItem(w.durable), hosts)
  }

  // ----- The calls as the source makes them -----

  class Service {
    const repos: Connection

    constructor (repos: Connection)
      ensures this.repos == repos
    {
      this.repos := repos;
    }

    method Bind(attempt: ApplicationAttempt, hosts: Hosts, i: Option<nat>) returns (r: Option<bool>)
      requires i.Some? ==> i.value < |attempt.interventions|
      modifies repos, attempt
      ensures match BindSession(old(repos.Value()), old(attempt.Value()), hosts, i)
              case Raised(w) => repos.Value() == w && r.None?
              case Done(w, (a, attached)) => repos.Value() == w && attempt.Value() == a && r == Some(attached)
    {
      var (host, session) := Target(attempt.Value(), i);
      if !IsConnected(hosts, host) {
        return Some(false);
      }
      if Present(session) && session.value in hosts.value[host.value] {
        return Some(true);
      }
      var name := repos.CreateSession(if Present(session) then session.value else attempt.id);
      if name.None? {
        return None;
      }
      if !Present(name.value) {
        return Some(false);
      }
      attempt.host := host;
      attempt.session := name.value;
      var target := if i.Some? then i else attempt.Value().PendingIntervention();
      if target.Some? {
        var item := attempt.interventions[target.value].(host := host, session := name.value);
        attempt.interventions := attempt.interventions[target.value := item];
      }
      var saved := repos.Commit(attempt.Value(), repos.tasks);
      r := if saved.None? then None else Some(true);
    }

    method ReclaimBeforeResume(attempt: ApplicationAttempt, i: nat, hosts: Hosts) returns (r: Option<bool>)
      requires i < |attempt.interventions|
      modifies repos, attempt
      ensures match Reclaim(old(repos.Value()), old(attempt.Value()), i, hosts)
              case Raised(w) => repos.Value() == w && r.None?
              case Done(w, (a, ours)) => repos.Value() == w && attempt.Value() == a && r == Some(ours)
    {
      if !attempt.interventions[i].handoff {
        return Some(true);
      }
      var (host, session) := Target(attempt.Value(), Some(i));
      if !IsConnected(hosts, host) {
        attempt.RecordEvent(ReclaimFailed);
        return Some(false);
      }
      attempt.host := host;
      attempt.session := session;
      var attached := Bind(attempt, hosts, Some(i));
      if attached.None? {
        return None;
      }
      if !attached.value {
        attempt.RecordEvent(ReclaimFailed);
        return Some(false);
      }
      r := TakeControlBack(attempt);
    }

    method TakeControlBack(attempt: ApplicationAttempt) returns (r: Option<bool>)
      modifies repos, attempt
      ensures match TakeBack(old(repos.Value()), old(attempt.Value()))
              case Raised(w) => repos.Value() == w && r.None?
              case Done(w, (a, ours)) => repos.Value() == w && attempt.Value() == a && r == Some(ours)
    {
      var ok := repos.AskForControl();
      if ok.None? {
        return None;
      }
      if ok.value {
        var owner := repos.ReadOwner();
        if owner.None? {
          return None;
        }
        if owner.value.Agent? {
          return Some(true);
        }
      }
      attempt.RecordEvent(ReclaimFailed);
      r := Some(false);
    }

    method CloseAndQueue(attempt: ApplicationAttempt, i: nat, resolution: Resolution, ours: bool)
      returns (r: Option<Resolved>)
      requires i < |attempt.interventions|
      modifies repos, attempt
      ensures Matches(Settle(old(repos.Value()), old(attempt.Value()), i, resolution, ours), repos.Value(), r)
    {
      if !ours {
        var open := repos.Commit(attempt.Value(), repos.tasks);
        return if open.None? then None else Some(StillOpen);
      }
      var done := attempt.interventions[i].(resolution := Some(resolution));
      attempt.interventions := attempt.interventions[i := done];
      attempt.state := WorkflowState.Pending;
      attempt.RecordEvent(Resumed);
      var saved := repos.Commit(attempt.Value(), Enqueue(repos.tasks));
      r := if saved.None? then None else Some(Queued);
    }

    /** Apply the human's answer, take the browser back and, only then, queue the resume. */
    method ResumeAttempt(attempt: ApplicationAttempt, i: nat, resolution: Resolution, answer: Option<string>,
        hosts: Hosts)
      returns (r: Option<Resolved>)
      requires i < |attempt.interventions|
      modifies repos, attempt
      ensures Matches(Resume(old(repos.Value()), old(attempt.Value()), i, resolution, answer, hosts), repos.Value(), r)
    {
      if resolution.Answer? && Present(answer) && attempt.interventions[i].questionKey.Some? {
        attempt.answers := GiveAnswer(attempt.answers, attempt.interventions[i].questionKey.value, answer.value);
      }
      assert attempt.Value() == TakeAnswer(old(attempt.Value()), i, resolution, answer);
      var ours := ReclaimBeforeResume(attempt, i, hosts);
      if ours.None? {
        return None;
      }
      r := CloseAndQueue(attempt, i, resolution, ours.value);
    }

    method ResolveIntervention(i: nat, resolution: Resolution, answer: Option<string>, hosts: Hosts, now: int)
      returns (r: Option<Resolved>)
      modifies repos
      ensures Matches(Resolve(old(repos.Value()), i, resolution, answer, hosts, now), repos.Value(), r)
    {
      var attempt := new ApplicationAttempt(repos.durable);
      if i >= |attempt.interventions| {
        return Some(Resolved.NotFound);
      }
      if !attempt.interventions[i].IsOpen() && !resolution.KeepControl? {
        return Some(AlreadyClosed);
      }
      if resolution.KeepControl? {
        attempt.RecordEvent(ControlKept);
        attempt.state := WaitingForHuman;
        var kept := repos.Commit(attempt.Value(), repos.tasks);
        return if kept.None? then None else Some(Kept);
      }
      if resolution.SkipApplication? || resolution.Cancel? {
        var closed := attempt.interventions[i].(resolution := Some(resolution));
        attempt.interventions := attempt.interventions[i := closed];
        attempt.state := WorkflowState.Cancelled;
        attempt.completedAt := Some(now);
        attempt.RecordEvent(CancelledEvent);
        var gone := repos.Commit(attempt.Value(), repos.tasks);
        return if gone.None? then None else Some(CancelledByUser);
      }
      r := ResumeAttempt(attempt, i, resolution, answer, hosts);
    }

    method SelectOrPause(attempt: ApplicationAttempt, env: RunEnv) returns (r: Option<bool>)
      modifies repos, attempt
      ensures match Acquire(old(repos.Value()), old(attempt.Value()), env)
              case Raised(w) => repos.Value() == w && r.None?
              case Done(w, acquired) =>
                repos.Value() == w && attempt.Value() == acquired.attempt && r == Some(acquired.Ready?)
    {
      if attempt.backend.None? {
        if !env.driverFound {
          attempt.OpenIntervention(UserReview, Some(false), None);
          return Some(false);
        }
        var selected := repos.Ask();
        if selected.None? {
          return None;
        }
        if selected.value.None? {
          attempt.OpenIntervention(UserReview, Some(env.needsHandoff), None);
          return Some(false);
        }
        attempt.backend := selected.value;
        attempt.RecordEvent(BrowserSelected);
      }
      var session := repos.Ask();
      if session.None? {
        return None;
      }
      if session.value.None? {
        attempt.OpenIntervention(UserReview, Some(env.needsHandoff), None);
        return Some(false);
      }
      attempt.session := Some(attempt.id);
      r := Some(true);
    }

    method RunApplicationAttempt(env: RunEnv) returns (r: Option<()>)
      modifies repos
      ensures Matches(RunTask(old(repos.Value()), env), repos.Value(), r)
    {
      var attempt := new ApplicationAttempt(repos.durable);
      if !env.jobFound {
        attempt.state := WorkflowState.Failed;
        r := repos.Commit(attempt.Value(), repos.tasks);
        return;
      }
      var bound := Bind(attempt, env.hosts, None);
      if bound.None? {
        return None;
      }
      if !bound.value {
        var acquired := SelectOrPause(attempt, env);
        if acquired.None? {
          return None;
        }
        if !acquired.value {
          r := repos.Commit(attempt.Value(), repos.tasks);
          return;
        }
      }
      if !env.driverFound {
        attempt.state := WorkflowState.Failed;
        r := repos.Commit(attempt.Value(), repos.tasks);
        return;
      }
      var outcome := RunFormApplication(attempt, repos, env.context.(mode := attempt.mode));
      if outcome.None? {
        return None;
      }
      if outcome.value.Waiting? {
        attempt.state := WaitingForHuman;
      }
      r := repos.Commit(attempt.Value(), repos.tasks);
    }

    method ActivateBrowser(hosts: Hosts) returns (r: Option<bool>)
      modifies repos
      ensures Matches(OpenBrowser(old(repos.Value()), hosts), repos.Value(), r)
    {
      var attempt := new ApplicationAttempt(repos.durable);
      if attempt.interventions == [] {
        return Some(false);
      }
      var i := ShownItem(attempt.Value());
      var presence := Presence(attempt.Value(), i, hosts);
      if presence.HostOffline? || presence.SessionUnavailable? {
        return Some(false);
      }
      var bound := Bind(attempt, hosts, Some(i));
      if bound.None? {
        return None;
      }
      if !bound.value {
        return Some(false);
      }
      r := repos.Act(HandoffRequested);
    }
  }
}

/** What binding a session, acquiring a browser, running a task and surfacing a browser
    leave behind. */
module ServiceResults {
  import opened Wrappers
  import opened Execution
  import opened Platform
  import opened Runner
  import opened RunnerResults
  import opened AttemptService
  import opened AttemptResults

  // ----- Binding -----

  /** The host and session a hosted attempt is bound to: those of the pause, if it has any. */
  ghost predicate TargetIs(a: Attempt, i: Option<nat>, host: Option<string>, session: Option<string>)
    requires i.Some? ==> i.value < |a.interventions|
  {
    && (i.None? ==> host == a.host && session == a.session)
    && (i.Some? ==>
          && host == (if Present(a.interventions[i.value].host) then a.interventions[i.value].host else a.host)
          && session ==
             (if Present(a.interventions[i.value].session) then a.interventions[i.value].session else a.session))
  }

  /** `b` is `a` with the session adopted, on the attempt and on the pause it is for: the one
      named, else the first open one. Nothing else changes. */
  ghost predicate Adopted(a: Attempt, b: Attempt, i: Option<nat>, host: string, session: string)
    requires i.Some? ==> i.value < |a.interventions|
  {
    && b == a.(host := Some(host), session := Some(session), interventions := b.interventions)
    && |b.interventions| == |a.interventions|
    && forall k :: 0 <= k < |a.interventions| ==>
         b.interventions[k] ==
         if i == Some(k) || (i.None? && FirstOpenAt(a, k)) then
           a.interventions[k].(host := Some(host), session := Some(session))
         else a.interventions[k]
  }

  ghost predicate FirstOpenAt(a: Attempt, k: nat) {
    k < |a.interventions| && a.interventions[k].IsOpen() && forall j :: 0 <= j < k ==> !a.interventions[j].IsOpen()
  }

  lemma AdoptIs(a: Attempt, i: Option<nat>, host: string, session: string)
    requires i.Some? ==> i.value < |a.interventions|
    ensures Adopted(a, Adopt(a, i, host, session), i, host, session)
  {
    var b := Adopt(a, i, host, session);
    var open := a.PendingIntervention();
    forall k | 0 <= k < |a.interventions|
      ensures FirstOpenAt(a, k) <==> open == Some(k)
    {
    }
  }

  /** Opening a session: what it takes, and what is then saved. */
  ghost predicate Opens(w: World, a: Attempt, i: Option<nat>, host: string, name: string, io: Io<(Attempt, bool)>)
    requires i.Some? ==> i.value < |a.interventions|
  {
    && var s := w.script;
    && (io.world.trace == w.trace <==> At(s, 0).Crash?)
    && (io.Done? && !io.value.1 <==> At(s, 0).Reply? && !AttemptResults.Opened(At(s, 0)))
    && (io.Done? && io.value.1 <==> AttemptResults.Opened(At(s, 0)) && At(s, 1).Reply?)
    && (io.Done? && !io.value.1 ==> io.value.0 == a && io.world.durable == w.durable)
    && (io.Done? && io.value.1 ==>
          && Adopted(a, io.value.0, i, host, s[0].name.value) && io.world.durable == io.value.0
          && io.world.script == s[2..]
          && io.world.trace == Then(Then(w.trace, SessionCreated(name)), Committed(io.value.0)))
  }

  lemma OpeningIs(w: World, a: Attempt, i: Option<nat>, host: string, name: string)
    requires i.Some? ==> i.value < |a.interventions|
    ensures Opens(w, a, i, host, name, OpenSession(w, a, i, host, name))
  {
    if w.script != [] && AttemptResults.Opened(w.script[0]) {
      AdoptIs(a, i, host, w.script[0].name.value);
    }
  }

  /** Binding to a host that is not connected does nothing. A session the host still holds is
      taken as it is. Otherwise one is asked for, by the name on record or else the attempt's
      own, and the name the host gives it is saved before anyone may use it; a host that
      gives none leaves everything as it was. */
  lemma BindingIs(w: World, a: Attempt, hosts: Hosts, i: Option<nat>, host: Option<string>, session: Option<string>)
    requires i.Some? ==> i.value < |a.interventions|
    requires TargetIs(a, i, host, session)
    ensures var io := BindSession(w, a, hosts, i);
            var known := Present(host) && hosts.Some? && host.value in hosts.value;
            var held := known && Present(session) && session.value in hosts.value[host.value];
            && (!known ==> io == Done(w, (a, false)))
            && (held ==> io == Done(w, (a, true)))
            && (known && !held ==> Opens(w, a, i, host.value, if Present(session) then session.value else a.id, io))
  {
    if IsConnected(hosts, host) {
      OpeningIs(w, a, i, host.value, if Present(session) then session.value else a.id);
    }
  }

  // ----- Acquiring a local browser -----

  /** The run waits for a human at the browser, or to choose one. */
  ghost predicate WaitsForBrowser(a: Attempt, b: Attempt, handoff: bool) {
    && b.state.WaitingForHuman?
    && b.interventions == a.interventions + [Intervention(UserReview, handoff, None, a.host, a.session, None)]
    && b.backend == a.backend && b.session == a.session && b.submissionAttemptedAt == a.submissionAttemptedAt
    && b.answers == a.answers
  }

  /** The session is acquired, or refused, by the reply to one question. */
  ghost predicate Acquires(a: Attempt, io: Io<Acquired>, reply: Reply, handoff: bool) {
    && (io.Raised? <==> !reply.Reply?)
    && (reply.Reply? ==>
          if reply.ok && reply.name.Some? then io.value == Ready(a.(session := Some(a.id)))
          else io.value.Paused? && WaitsForBrowser(a, io.value.attempt, handoff))
  }

  /** A backend is chosen once in an attempt's life and then acquired. Without a driver to
      choose for, or if either step is refused, the attempt waits for a human. */
  lemma AcquiringIs(w: World, a: Attempt, env: RunEnv)
    ensures var io := Acquire(w, a, env); var s := w.script;
            && io.world.durable == w.durable && io.world.tasks == w.tasks && io.world.trace == w.trace
            && (a.backend.Some? ==> Acquires(a, io, At(s, 0), env.needsHandoff))
            && (a.backend.None? && !env.driverFound ==>
                  io.Done? && io.world == w && io.value.Paused? && WaitsForBrowser(a, io.value.attempt, false))
            && (a.backend.None? && env.driverFound ==>
                  if At(s, 0).Reply? && At(s, 0).ok && At(s, 0).name.Some? then
                    Acquires(a.(backend := s[0].name).RecordEvent(BrowserSelected), io, At(s, 1), env.needsHandoff)
                  else Acquires(a, io, At(s, 0), env.needsHandoff))
  {
  }

  // ----- Running a task -----

  /** The row saved last is the one that is durable. */
  ghost predicate Saved(x: World) {
    x.trace.Then? && x.trace.effect == Committed(x.durable)
  }

  lemma {:induction false} StepSaves(w: World, a: Attempt, env: RunEnv)
    requires RunStep(w, a, env).Done?
    ensures var x := RunStep(w, a, env).world; var c := env.context.(mode := a.mode);
            && Saved(x)
            && if !env.driverFound then x.durable == a.(state := WorkflowState.Failed)
               else RunForm(w, a, c).Done? && x.durable == RunForm(w, a, c).value.0
  {
    if env.driverFound {
      StateIsReported(w, a, env.context.(mode := a.mode));
    }
  }

  /** How a task gets its browser: the bound session, or one of its own. */
  function Acquiring(w: World, env: RunEnv): Io<Acquired> {
    var (w, bound) :- BindSession(w, w.durable, env.hosts, None);
    if bound.1 then Done(w, Ready(bound.0)) else Acquire(w, bound.0, env)
  }

  lemma AcquiringKeepsMode(w: World, env: RunEnv)
    ensures Acquiring(w, env).Done? ==> Acquiring(w, env).value.attempt.mode == w.durable.mode
  {
  }

  /** What a run that reaches its end saves. Without the job, or without a driver for it, the
      attempt fails; without a browser it waits; otherwise the row is exactly what the form
      flow made of it, which was run in the attempt's own mode. */
  lemma {:induction false} TaskSaves(w: World, env: RunEnv)
    requires RunTask(w, env).Done?
    ensures var x := RunTask(w, env).world; var c := env.context.(mode := w.durable.mode);
            && Saved(x)
            && if !env.jobFound then x.durable == w.durable.(state := WorkflowState.Failed)
               else
                 var acquired := Acquiring(w, env);
                 && acquired.Done?
                 && var a := acquired.value.attempt;
                 && if acquired.value.Paused? then x.durable == a
                    else if !env.driverFound then x.durable == a.(state := WorkflowState.Failed)
                    else
                      && RunForm(acquired.world, a, c).Done?
                      && x.durable == RunForm(acquired.world, a, c).value.0
  {
    if env.jobFound {
      AcquiringKeepsMode(w, env);
      var acquired := Acquiring(w, env);
      if acquired.value.Ready? {
        StepSaves(acquired.world, acquired.value.attempt, env);
      }
    }
  }

  // ----- Surfacing a browser -----

  /** How often a human was sent to the browser. */
  ghost function Handovers(t: Trace): nat {
    match t
    case Nothing => 0
    case Then(past, e) => Handovers(past) + if e.HandoffRequested? then 1 else 0
  }

  lemma BindingHandsNothingOver(w: World, a: Attempt, hosts: Hosts, i: nat)
    requires i < |a.interventions|
    ensures Handovers(BindSession(w, a, hosts, Some(i)).world.trace) == Handovers(w.trace)
  {
    var (host, session) := Target(a, Some(i));
    if IsConnected(hosts, host) {
      var created := w.CreateSession(if Present(session) then session.value else a.id);
      assert Handovers(created.world.trace) == Handovers(w.trace);
    }
  }

  /** The session attaches at once, or after the host has opened one and it was saved. */
  predicate Attaches(held: bool, s: seq<Reply>) {
    held || (AttemptResults.Opened(At(s, 0)) && At(s, 1).Reply?)
  }

  lemma AttachingIs(w: World, a: Attempt, hosts: Hosts, i: nat, host: Option<string>, session: Option<string>)
    requires i < |a.interventions| && TargetIs(a, Some(i), host, session)
    ensures var io := BindSession(w, a, hosts, Some(i));
            var known := Present(host) && hosts.Some? && host.value in hosts.value;
            var held := known && Present(session) && session.value in hosts.value[host.value];
            && (io.Done? && io.value.1 <==> known && Attaches(held, w.script))
            && (io.Done? && io.value.1 ==> forall k: nat :: k <= 1 ==>
                  At(io.world.script, k) == At(w.script, (if held then 0 else 2) + k))
  {
    BindingIs(w, a, hosts, Some(i), host, session);
  }

  lemma PresenceIs(a: Attempt, i: nat, hosts: Hosts, host: Option<string>, session: Option<string>)
    requires i < |a.interventions| && TargetIs(a, Some(i), host, session)
    ensures var p := Presence(a, i, hosts);
            var known := Present(host) && hosts.Some? && host.value in hosts.value;
            !(p.HostOffline? || p.SessionUnavailable?) <==>
            (a.interventions[i].handoff ==> known && (Present(session) ==> session.value in hosts.value[host.value]))
  {
  }

  /** `x` follows `w` with the answer `r` to sending a human there, or without having asked. */
  ghost predicate HandsOver(w: World, io: Io<bool>, attached: bool, reply: Reply) {
    && Handovers(io.world.trace) == Handovers(w.trace) + (if attached && !reply.Crash? then 1 else 0)
    && (io.Done? && io.value <==> attached && reply.Reply? && reply.ok)
  }

  lemma ActHandsOver(w: World, v: World)
    requires Handovers(v.trace) == Handovers(w.trace)
    ensures HandsOver(w, v.Act(HandoffRequested), true, At(v.script, 0))
  {
  }

  /** A human is sent to the browser, once, exactly when the attempt has an item to show, its
      host is connected, a session on record is one the host still holds unless the item
      needs no browser, and attaching it succeeds; the answer is that of the host. */
  lemma HandoverIff(w: World, hosts: Hosts, i: nat, host: Option<string>, session: Option<string>)
    requires w.durable.interventions != [] ==>
               i == ShownItem(w.durable) && TargetIs(w.durable, Some(i), host, session)
    ensures var known := Present(host) && hosts.Some? && host.value in hosts.value;
            var held := known && Present(session) && session.value in hosts.value[host.value];
            var attached := && w.durable.interventions != [] && known && Attaches(held, w.script)
                            && (w.durable.interventions[i].handoff ==> held || !Present(session));
            HandsOver(w, OpenBrowser(w, hosts), attached, At(w.script, if held then 0 else 2))
  {
    if w.durable.interventions != [] {
      PresenceIs(w.durable, i, hosts, host, session);
      BindingHandsNothingOver(w, w.durable, hosts, i);
      AttachingIs(w, w.durable, hosts, i, host, session);
      var bound := BindSession(w, w.durable, hosts, Some(i));
      ActHandsOver(w, bound.world);
    }
  }
}

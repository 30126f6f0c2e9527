/** What one dispatcher guarantees over any stream of command frames, with repeats, late
    frames and changes of ownership in between. */
module DispatcherResults {
  import opened Wrappers
  import opened HostProtocol
  import opened Dispatcher

  datatype Event =
    | Arrives(session: string, cmd: CommandMessage, now: int, env: Env)
    | OwnerBecomes(session: string, owner: Owner)

  function Step(rules: Rules, desk: Desk, e: Event): Desk {
    match e
    case Arrives(session, cmd, now, env) => Executed(rules, desk, session, cmd, now, env).0
    case OwnerBecomes(session, owner) => desk.(owners := desk.owners[session := owner])
  }

  function Run(rules: Rules, desk: Desk, events: seq<Event>): Desk {
    if events == [] then desk
    else Step(rules, Run(rules, desk, events[..|events| - 1]), events[|events| - 1])
  }

  const IDLE: Desk := Desk(map[], map[], NoActs)

  /** How often a consequential operation under `key` reached a session. */
  function Times(acts: Acts, key: string): nat {
    match acts
    case NoActs => 0
    case Then(past, last) =>
      Times(past, key) + if Consequential(last.command) && last.key == Some(key) then 1 else 0
  }

  /** How often an operation the user must be protected from reached `session`. */
  function ActingOn(acts: Acts, session: string): nat {
    match acts
    case NoActs => 0
    case Then(past, last) => ActingOn(past, session) + if Acting(last.command) && last.session == session then 1 else 0
  }

  /** The frame is in time, and if it is consequential its key is there and not used up. */
  ghost predicate IsNew(desk: Desk, cmd: CommandMessage, now: int) {
    && (cmd.expiresAt.Some? ==> now < cmd.expiresAt.value)
    && (Consequential(cmd.command) ==> Present(cmd.key) && cmd.key.value !in desk.results)
  }

  /** The ownership question is answered, and the agent owns the session if the command acts. */
  ghost predicate MayProceed(desk: Desk, session: string, cmd: CommandMessage, env: Env) {
    env.ownerAnswers && session in desk.owners && (Acting(cmd.command) ==> desk.owners[session].Agent?)
  }

  ghost predicate Able(rules: Rules, cmd: CommandMessage) {
    Required(cmd.command).Some? ==> Required(cmd.command).value in rules.capabilities
  }

  /** The parameters are all there, and an upload stays inside the documents directory. */
  ghost predicate Complete(rules: Rules, cmd: CommandMessage) {
    && (cmd.command.Upload? ==> "path" in cmd.params && rules.inside(cmd.params["path"]))
    && (forall i :: 0 <= i < |Names(cmd.command)| ==> Names(cmd.command)[i] in cmd.params)
  }

  ghost predicate Reaches(rules: Rules, desk: Desk, session: string, cmd: CommandMessage, now: int, env: Env) {
    && UsesSession(cmd.command) && IsNew(desk, cmd, now) && MayProceed(desk, session, cmd, env)
    && Able(rules, cmd) && Complete(rules, cmd)
  }

  /** A frame reaches the session exactly when it is in time, new if it is consequential,
      the ownership question is answered, the agent owns the session if the command acts,
      the backend has the capability and the parameters are all there. */
  lemma ReachesSessionIff(rules: Rules, desk: Desk, session: string, cmd: CommandMessage, now: int, env: Env)
    ensures var d := Executed(rules, desk, session, cmd, now, env).0;
            && (d.acts == desk.acts || d.acts == Then(desk.acts, Act(session, cmd.command, cmd.params, cmd.key)))
            && (d.acts != desk.acts <==> Reaches(rules, desk, session, cmd, now, env))
  {
    NotItsOwnPast(desk.acts, Act(session, cmd.command, cmd.params, cmd.key));
  }

  lemma {:induction false} NotItsOwnPast(acts: Acts, a: Act)
    ensures Then(acts, a) != acts
  {
    match acts
    case NoActs =>
    case Then(past, last) => NotItsOwnPast(past, last);
  }

  // ----- What is replied -----

  /** What a frame that reaches the session is told: that the operation was carried out, with
      the session's own payload, exactly if it did not raise; an internal error otherwise.
      Whoever drives afterwards is whom the session names, if the operation hands over. */
  lemma ReplyIsTheSessions(rules: Rules, desk: Desk, session: string, cmd: CommandMessage, now: int, env: Env)
    requires Reaches(rules, desk, session, cmd, now, env)
    ensures var (d, r) := Executed(rules, desk, session, cmd, now, env);
            && r.commandId == cmd.id && !r.deduplicated
            && (r.ok <==> !env.raises)
            && (r.ok ==> r.payload == env.payload && r.error.None?)
            && (!r.ok ==> r.error == Some(Internal) && r.payload == Payload(None, None, ""))
            && d.owners == (if cmd.command in {RequestHandoff, ReclaimControl} then desk.owners[session := env.owner]
                            else desk.owners)
  {
  }

  /** A question about ownership is answered with the owner's name, unless it cannot be. */
  lemma OwnerIsReported(rules: Rules, desk: Desk, session: string, cmd: CommandMessage, now: int, env: Env)
    requires cmd.command.ControlState? && IsNew(desk, cmd, now) && MayProceed(desk, session, cmd, env)
    ensures var r := Executed(rules, desk, session, cmd, now, env).1;
            if env.raises then r == ResultMessage(cmd.id, false, Payload(None, None, ""), Some(Internal), false)
            else
              var name := match desk.owners[session]
                          case Agent => "agent"
                          case DelegatedToUser => "delegated_to_user"
                          case User => "user";
              r == ResultMessage(cmd.id, true, Payload(None, Some(name), ""), None, false)
  {
  }

  /** Why a frame is refused, each code by its own condition, for a frame that is new. */
  lemma RefusedIff(rules: Rules, desk: Desk, session: string, cmd: CommandMessage, now: int, env: Env)
    requires IsNew(desk, cmd, now)
    ensures var (d, r) := Executed(rules, desk, session, cmd, now, env);
            var owned := env.ownerAnswers && session in desk.owners;
            var go := MayProceed(desk, session, cmd, env);
            && r.commandId == cmd.id && !r.deduplicated && (r.ok <==> r.error.None?)
            && (r.error == Some(UserHasControl) <==> owned && !go)
            && (r.error == Some(CapabilityUnavailable) <==>
                  go && (!Able(rules, cmd) || (cmd.command.Evaluate? && JavascriptEval !in rules.capabilities)))
            && (r.error == Some(UnknownCommand) <==>
                  go && cmd.command.Evaluate? && JavascriptEval in rules.capabilities)
            && (r.error == Some(Malformed) <==>
                  go && cmd.command.Upload? && "path" in cmd.params && !rules.inside(cmd.params["path"]))
            && (r.error == Some(Internal) <==>
                  || !owned
                  || (go && Able(rules, cmd) && !cmd.command.Evaluate?
                      && !(cmd.command.Upload? && "path" in cmd.params && !rules.inside(cmd.params["path"]))
                      && (!Complete(rules, cmd)
                          || (env.raises && (UsesSession(cmd.command) || cmd.command.ControlState?)))))
            && r.error in {None, Some(UserHasControl), Some(CapabilityUnavailable), Some(UnknownCommand),
                           Some(Malformed), Some(Internal)}
            && (r.error.Some? && !Reaches(rules, desk, session, cmd, now, env) ==> d.owners == desk.owners)
  {
  }

  /** Why a frame that is not new is turned away, and that nothing is then recorded. */
  lemma TurnedAwayIff(rules: Rules, desk: Desk, session: string, cmd: CommandMessage, now: int, env: Env)
    requires !IsNew(desk, cmd, now)
    ensures var (d, r) := Executed(rules, desk, session, cmd, now, env);
            var late := cmd.expiresAt.Some? && now >= cmd.expiresAt.value;
            && d == desk && r.commandId == cmd.id
            && (late ==> r == ResultMessage(cmd.id, false, Payload(None, None, ""), Some(Expired), false))
            && (!late && !Present(cmd.key) ==>
                  r == ResultMessage(cmd.id, false, Payload(None, None, ""), Some(Malformed), false))
            && (!late && Present(cmd.key) ==>
                  cmd.key.value in desk.results
                  && r == desk.results[cmd.key.value].(commandId := cmd.id, deduplicated := true))
  {
  }

  /** Which commands a human at the browser is protected from, and which capability and
      parameters each command asks for. */
  lemma CommandsAre(c: HostCommand)
    ensures Acting(c) <==> c in {CreateSession, Navigate, WaitForNavigation, Click, Fill, Select, SetChecked, Upload,
                                 Download, Evaluate, OpenTab, CloseTab, ActivateTab, ListTabs, RequestHandoff}
    ensures UsesSession(c) <==> c !in {ControlState, Health, HostCommand.Cancel, CreateSession, Evaluate}
    ensures Required(c) == Some(MultiTab) <==> c in {OpenTab, CloseTab, ActivateTab, ListTabs}
    ensures Required(c) == Some(Downloads) <==> c == Download
    ensures "locator" in Names(c) <==> c in {Click, Fill, Select, SetChecked, Upload, Download}
    ensures "url" in Names(c) <==> c == Navigate
    ensures "tab_id" in Names(c) <==> c in {ActivateTab, CloseTab}
    ensures "value" in Names(c) <==> c == Fill
    ensures "option" in Names(c) <==> c == Select
    ensures "checked" in Names(c) <==> c == SetChecked
  {
  }

  // ----- At most once -----

  ghost predicate AtMostOnce(desk: Desk, key: string) {
    Times(desk.acts, key) <= 1 && (Times(desk.acts, key) == 1 ==> key in desk.results)
  }

  lemma StepAtMostOnce(rules: Rules, desk: Desk, e: Event, key: string)
    requires AtMostOnce(desk, key) && key != ""
    ensures AtMostOnce(Step(rules, desk, e), key)
    ensures key in desk.results ==>
              key in Step(rules, desk, e).results && Times(Step(rules, desk, e).acts, key) == Times(desk.acts, key)
  {
    if e.Arrives? {
      ReachesSessionIff(rules, desk, e.session, e.cmd, e.now, e.env);
    }
  }

  /** However often and however late frames arrive, across all sessions, and whatever other
      commands carry the same key, a consequential operation runs at most once per key. */
  lemma {:induction false} OncePerKey(rules: Rules, owners: map<string, Owner>, events: seq<Event>, key: string)
    requires key != ""
    ensures AtMostOnce(Run(rules, Desk(map[], owners, NoActs), events), key)
  {
    if events != [] {
      var past := events[..|events| - 1];
      OncePerKey(rules, owners, past, key);
      StepAtMostOnce(rules, Run(rules, Desk(map[], owners, NoActs), past), events[|events| - 1], key);
    }
  }

  /** A recorded key is spent. This includes a key recorded for a refusal: a click turned
      away because the user was driving never happens under that key, even after the user
      hands the browser back. */
  lemma {:induction false} SpentKeyNeverActs(rules: Rules, desk: Desk, events: seq<Event>, key: string)
    requires key != "" && key in desk.results && AtMostOnce(desk, key)
    ensures var d := Run(rules, desk, events);
            AtMostOnce(d, key) && key in d.results && Times(d.acts, key) == Times(desk.acts, key)
  {
    if events != [] {
      var past := events[..|events| - 1];
      SpentKeyNeverActs(rules, desk, past, key);
      StepAtMostOnce(rules, Run(rules, desk, past), events[|events| - 1], key);
    }
  }

  lemma RefusedClickIsSpent(rules: Rules, desk: Desk, session: string, click: CommandMessage, now: int, env: Env,
                            after: seq<Event>)
    requires click.command.Click? && Present(click.key) && !click.IsExpired(now)
    requires click.key.value !in desk.results && Times(desk.acts, click.key.value) == 0
    requires env.ownerAnswers && session in desk.owners && !desk.owners[session].Agent?
    ensures Executed(rules, desk, session, click, now, env).1.error == Some(UserHasControl)
    ensures Times(Run(rules, Executed(rules, desk, session, click, now, env).0, after).acts, click.key.value) == 0
  {
    SpentKeyNeverActs(rules, Executed(rules, desk, session, click, now, env).0, after, click.key.value);
  }

  // ----- The recorded answer -----

  /** The record for a key is replaced by exactly the frames that carry the key, are in
      time and are not consequential; their own reply takes its place. */
  lemma RecordReplacedIff(rules: Rules, desk: Desk, session: string, cmd: CommandMessage, now: int, env: Env,
                          key: string)
    requires key != "" && key in desk.results && desk.results[key].commandId != cmd.id
    ensures var d := Executed(rules, desk, session, cmd, now, env).0;
            && key in d.results
            && (d.results[key] != desk.results[key] <==>
                !cmd.IsExpired(now) && cmd.key == Some(key) && !Consequential(cmd.command))
  {
  }

  ghost predicate OnlyConsequential(events: seq<Event>, key: string) {
    forall i :: 0 <= i < |events| && events[i].Arrives? && events[i].cmd.key == Some(key) ==>
                  Consequential(events[i].cmd.command)
  }

  lemma {:induction false} RecordKept(rules: Rules, desk: Desk, events: seq<Event>, key: string)
    requires key != "" && key in desk.results && OnlyConsequential(events, key)
    ensures var d := Run(rules, desk, events); key in d.results && d.results[key] == desk.results[key]
  {
    if events != [] {
      RecordKept(rules, desk, events[..|events| - 1], key);
    }
  }

  /** Where a key is used only by consequential commands, the first in-time frame decides,
      and every later in-time frame with the key gets that same reply, under its own
      command identifier and flagged as a duplicate, without touching anything. */
  lemma LaterFramesEcho(rules: Rules, desk: Desk, s1: string, first: CommandMessage, t1: int, env1: Env,
                        between: seq<Event>, s2: string, again: CommandMessage, t2: int, env2: Env)
    requires Consequential(first.command) && Present(first.key) && !first.IsExpired(t1)
    requires first.key.value !in desk.results
    requires Consequential(again.command) && again.key == first.key && !again.IsExpired(t2)
    requires OnlyConsequential(between, first.key.value)
    ensures var (d, r) := Executed(rules, desk, s1, first, t1, env1);
            var d2 := Run(rules, d, between);
            Executed(rules, d2, s2, again, t2, env2) == (d2, r.(commandId := again.id, deduplicated := true))
  {
    RecordKept(rules, Executed(rules, desk, s1, first, t1, env1).0, between, first.key.value);
  }

  /** A keyed navigation overwrites the record: the repeated click is then answered with
      the navigation's reply. */
  lemma OverwrittenRecordEchoesAnother()
    ensures var rules := Rules({}, (p: string) => false);
            var click := CommandMessage("1", Click, Some("s"), map["locator" := "#b"], Some("k"), None);
            var go := CommandMessage("2", Navigate, Some("s"), map["url" := "u"], Some("k"), None);
            var clicked := Env(true, false, Payload(None, None, "clicked"), Platform.Agent);
            var moved := Env(true, false, Payload(None, None, "moved"), Platform.Agent);
            var desk := Run(rules, Desk(map[], map["s" := Platform.Agent], NoActs),
                            [Arrives("s", click, 0, clicked), Arrives("s", go, 0, moved)]);
            Executed(rules, desk, "s", click.(id := "3"), 0, clicked).1.payload.body == "moved"
  {
    var rules := Rules({}, (p: string) => false);
    var click := CommandMessage("1", Click, Some("s"), map["locator" := "#b"], Some("k"), None);
    var go := CommandMessage("2", Navigate, Some("s"), map["url" := "u"], Some("k"), None);
    var clicked := Env(true, false, Payload(None, None, "clicked"), Platform.Agent);
    var moved := Env(true, false, Payload(None, None, "moved"), Platform.Agent);
    var d0 := Desk(map[], map["s" := Platform.Agent], NoActs);
    var e1, e2 := Arrives("s", click, 0, clicked), Arrives("s", go, 0, moved);
    assert [e1, e2][..1] == [e1] && [e1][..0] == [];
    var d1 := Run(rules, d0, [e1]);
    assert d1 == Step(rules, Run(rules, d0, []), e1);
    assert d1.results["k"].payload.body == "clicked" && d1.owners == d0.owners;
    var d2 := Run(rules, d0, [e1, e2]);
    assert d2 == Step(rules, d1, e2);
    assert d2.results["k"].payload.body == "moved";
  }

  // ----- Who may act -----

  ghost predicate HandsOver(e: Event, session: string) {
    match e
    case Arrives(s, cmd, _, _) => s == session && MovesOwner(cmd.command)
    case OwnerBecomes(s, owner) => s == session && owner.Agent?
  }

  /** From the moment somebody other than the agent drives a session until ownership is
      handed over or a reclaim is asked for, no acting command reaches that session,
      whatever arrives. */
  lemma {:induction false} UserIsLeftAlone(rules: Rules, desk: Desk, events: seq<Event>, session: string)
    requires session in desk.owners && !desk.owners[session].Agent?
    requires forall i :: 0 <= i < |events| ==> !HandsOver(events[i], session)
    ensures var d := Run(rules, desk, events);
            && ActingOn(d.acts, session) == ActingOn(desk.acts, session)
            && session in d.owners && !d.owners[session].Agent?
  {
    if events != [] {
      var past := events[..|events| - 1];
      UserIsLeftAlone(rules, desk, past, session);
      var e := events[|events| - 1];
      assert !HandsOver(e, session);
      var d := Run(rules, desk, past);
      if e.Arrives? {
        ReachesSessionIff(rules, d, e.session, e.cmd, e.now, e.env);
      }
    }
  }

  /** Every acting operation ever logged happened while the agent owned its session. */
  lemma ActsOnlyAsOwner(rules: Rules, desk: Desk, e: Event, session: string)
    requires ActingOn(Step(rules, desk, e).acts, session) != ActingOn(desk.acts, session)
    ensures session in desk.owners && desk.owners[session].Agent?
    ensures ActingOn(Step(rules, desk, e).acts, session) == ActingOn(desk.acts, session) + 1
  {
    if e.Arrives? {
      ReachesSessionIff(rules, desk, e.session, e.cmd, e.now, e.env);
    }
  }

  // ----- Deadlines -----

  const GRACE: int := 5

  /** The server gives a command `wait` seconds and tells the host `wait` plus five. Once
      the caller has given up, the host refuses the command exactly when the five seconds
      have passed as well; inside them it may still be carried out. */
  lemma GivenUpIsRefusedIff(results: map<string, ResultMessage>, cmd: CommandMessage, sent: int, wait: nat, now: int)
    requires cmd.expiresAt == Some(sent + wait + GRACE) && now >= sent + wait
    ensures Stale(results, cmd, now) == Some(Refusal(cmd, Expired)) <==> now >= sent + wait + GRACE
  {
    if now < sent + wait + GRACE && Consequential(cmd.command) && Present(cmd.key) && cmd.key.value in results {
      assert Stale(results, cmd, now).value.deduplicated;
    }
  }

  lemma GivenUpMayStillRun(rules: Rules, desk: Desk, sent: int, wait: nat, env: Env)
    requires "s" in desk.owners && desk.owners["s"].Agent? && "k" !in desk.results && env.ownerAnswers
    ensures var click := CommandMessage("1", Click, Some("s"), map["locator" := "#b"], Some("k"),
                                        Some(sent + wait + GRACE));
            Executed(rules, desk, "s", click, sent + wait, env).0.acts
            == Then(desk.acts, Act("s", Click, map["locator" := "#b"], Some("k")))
  {
    var click := CommandMessage("1", Click, Some("s"), map["locator" := "#b"], Some("k"), Some(sent + wait + GRACE));
    ReachesSessionIff(rules, desk, "s", click, sent + wait, env);
  }
}

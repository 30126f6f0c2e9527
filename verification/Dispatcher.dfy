/** The host side: protocol commands mapped onto the local browser. */
module Dispatcher {
  import opened Wrappers
  import opened HostProtocol
  import Platform

  type Owner = Platform.Owner

  datatype Capability = MultiTab | Downloads | JavascriptEval

  /** One operation that reached a browser session. */
  datatype Act = Act(session: string, command: HostCommand, params: map<string, string>, key: Option<string>)

  datatype Acts = NoActs | Then(past: Acts, last: Act)

  /** What a host is configured with: the capabilities its backend advertised, and which
      upload paths resolve inside its documents directory. */
  datatype Rules = Rules(capabilities: set<Capability>, inside: string -> bool)

  /** What the browser does when it is asked: whether an ownership question is answered,
      whether the operation raises, its reply, and who drives the session afterwards. */
  datatype Env = Env(ownerAnswers: bool, raises: bool, payload: Payload, owner: Owner)

  /** The dispatcher's memory, and the browser behind it. */
  datatype Desk = Desk(results: map<string, ResultMessage>, owners: map<string, Owner>, acts: Acts)

  /** Commands refused while the user drives. */
  predicate Acting(c: HostCommand) {
    !(c.ControlState? || c.ReclaimControl? || c.Observe? || c.Screenshot? || c.Checkpoint?
      || c.Health? || c.Cancel? || c.CloseSession?)
  }

  /** Commands that are carried out by the session itself. */
  predicate UsesSession(c: HostCommand) {
    !(c.ControlState? || c.Health? || c.Cancel? || c.CreateSession? || c.Evaluate?)
  }

  predicate MovesOwner(c: HostCommand) {
    c.RequestHandoff? || c.ReclaimControl?
  }

  function Required(c: HostCommand): Option<Capability> {
    if c.OpenTab? || c.CloseTab? || c.ActivateTab? || c.ListTabs? then Some(MultiTab)
    else if c.Download? then Some(Downloads)
    else None
  }

  function Names(c: HostCommand): seq<string> {
    match c
    case Navigate => ["url"]
    case ActivateTab => ["tab_id"]
    case CloseTab => ["tab_id"]
    case Download => ["locator"]
    case Click => ["locator"]
    case Upload => ["locator"]
    case Fill => ["locator", "value"]
    case Select => ["locator", "option"]
    case SetChecked => ["locator", "checked"]
    case _ => []
  }

  function OwnerName(o: Owner): string {
    match o
    case Agent => "agent"
    case DelegatedToUser => "delegated_to_user"
    case User => "user"
  }

  function Refusal(cmd: CommandMessage, e: ErrorCode): ResultMessage {
    ResultMessage(cmd.id, false, BARE, Some(e), false)
  }

  // ----- Specification -----

  function Stale(results: map<string, ResultMessage>, cmd: CommandMessage, now: int): Option<ResultMessage> {
    if cmd.IsExpired(now) then Some(Refusal(cmd, Expired))
    else if !Consequential(cmd.command) then None
    else if !Present(cmd.key) then Some(Refusal(cmd, Malformed))
    else if cmd.key.value in results then Some(results[cmd.key.value].(commandId := cmd.id, deduplicated := true))
    else None
  }

  function Remembered(results: map<string, ResultMessage>, cmd: CommandMessage, r: ResultMessage)
    : map<string, ResultMessage>
  {
    if Present(cmd.key) then results[cmd.key.value := r] else results
  }

  /** Why a command is refused before the session is asked to carry it out. */
  function Gate(rules: Rules, owner: Option<Owner>, cmd: CommandMessage): Option<ErrorCode> {
    if owner.None? then Some(Internal)
    else if Acting(cmd.command) && !owner.value.Agent? then Some(UserHasControl)
    else if Required(cmd.command).Some? && Required(cmd.command).value !in rules.capabilities then
      Some(CapabilityUnavailable)
    else if cmd.command.Evaluate? then
      if JavascriptEval !in rules.capabilities then Some(CapabilityUnavailable) else Some(UnknownCommand)
    else if cmd.command.Upload? && "path" !in cmd.params then Some(Internal)
    else if cmd.command.Upload? && !rules.inside(cmd.params["path"]) then Some(Malformed)
    else if exists i :: 0 <= i < |Names(cmd.command)| && Names(cmd.command)[i] !in cmd.params then Some(Internal)
    else None
  }

  /** The command is carried out; a session operation is logged even when it raises, since
      it may have taken effect. */
  function Perform(desk: Desk, session: string, cmd: CommandMessage, env: Env): (Desk, Result<Payload, ErrorCode>) {
    if UsesSession(cmd.command) then
      var d := desk.(acts := Then(desk.acts, Act(session, cmd.command, cmd.params, cmd.key)));
      var e := if MovesOwner(cmd.command) then d.(owners := d.owners[session := env.owner]) else d;
      (e, if env.raises then Err(Internal) else Ok(env.payload))
    else if cmd.command.ControlState? && session in desk.owners then
      (desk, if env.raises then Err(Internal) else Ok(Payload(None, Some(OwnerName(desk.owners[session])), "")))
    else (desk, Ok(BARE))
  }

  function OwnerSeen(desk: Desk, session: string, env: Env): Option<Owner> {
    if env.ownerAnswers && session in desk.owners then Some(desk.owners[session]) else None
  }

  function Attempted(rules: Rules, desk: Desk, session: string, cmd: CommandMessage, env: Env)
    : (Desk, ResultMessage)
  {
    var refused := Gate(rules, OwnerSeen(desk, session, env), cmd);
    if refused.Some? then (desk, Refusal(cmd, refused.value))
    else
      var (d, r) := Perform(desk, session, cmd, env);
      (d, if r.Ok? then ResultMessage(cmd.id, true, r.value, None, false) else Refusal(cmd, r.error))
  }

  function Executed(rules: Rules, desk: Desk, session: string, cmd: CommandMessage, now: int, env: Env)
    : (Desk, ResultMessage)
  {
    var stale := Stale(desk.results, cmd, now);
    if stale.Some? then (desk, stale.value)
    else
      var (d, r) := Attempted(rules, desk, session, cmd, env);
      (d.(results := Remembered(d.results, cmd, r)), r)
  }

  // ----- The dispatcher as the source runs it -----

  /** The browser on the host: who drives each of its sessions, and what was done in them. */
  class LocalBrowser {
    var owners: map<string, Owner>
    var acts: Acts

    constructor ()
      ensures owners == map[] && acts == NoActs
    {
      owners, acts := map[], NoActs;
    }

    method Control(session: string, env: Env) returns (r: Option<Owner>)
      ensures r == if env.ownerAnswers && session in owners then Some(owners[session]) else None
    {
      r := if env.ownerAnswers && session in owners then Some(owners[session]) else None;
    }

    method Do(session: string, cmd: CommandMessage, env: Env) returns (r: Result<Payload, ErrorCode>)
      modifies this
      ensures acts == Then(old(acts), Act(session, cmd.command, cmd.params, cmd.key))
      ensures owners == if MovesOwner(cmd.command) then old(owners)[session := env.owner] else old(owners)
      ensures r == if env.raises then Err(Internal) else Ok(env.payload)
    {
      acts := Then(acts, Act(session, cmd.command, cmd.params, cmd.key));
      if MovesOwner(cmd.command) {
        owners := owners[session := env.owner];
      }
      r := if env.raises then Err(Internal) else Ok(env.payload);
    }
  }

  class CommandDispatcher {
    const rules: Rules
    const browser: LocalBrowser
    var results: map<string, ResultMessage>

    function Value(): Desk
      reads this, browser
    {
      Desk(results, browser.owners, browser.acts)
    }

    constructor (rules: Rules, browser: LocalBrowser)
      ensures this.rules == rules && this.browser == browser && results == map[]
    {
      this.rules, this.browser, results := rules, browser, map[];
    }

    method RefuseIfStale(cmd: CommandMessage, now: int) returns (r: Option<ResultMessage>)
      ensures r == Stale(results, cmd, now)
    {
      if cmd.IsExpired(now) {
        return Some(Refusal(cmd, Expired));
      }
      if Consequential(cmd.command) {
        if !Present(cmd.key) {
          return Some(Refusal(cmd, Malformed));
        }
        if cmd.key.value in results {
          return Some(results[cmd.key.value].(commandId := cmd.id, deduplicated := true));
        }
      }
      r := None;
    }

    method Remember(cmd: CommandMessage, result: ResultMessage)
      modifies this
      ensures results == Remembered(old(results), cmd, result)
    {
      if Present(cmd.key) {
        results := results[cmd.key.value := result];
      }
    }

    method MissingName(cmd: CommandMessage) returns (missing: bool)
      ensures missing == exists i :: 0 <= i < |Names(cmd.command)| && Names(cmd.command)[i] !in cmd.params
    {
      var names := Names(cmd.command);
      for i := 0 to |names|
        invariant forall j :: 0 <= j < i ==> names[j] in cmd.params
      {
        if names[i] !in cmd.params {
          return true;
        }
      }
      missing := false;
    }

    /** One command against the session: the owner gate, the capability gates, the call. */
    method Try(session: string, cmd: CommandMessage, env: Env) returns (r: Result<Payload, ErrorCode>)
      modifies browser
      ensures var (d, m) := Attempted(rules, old(Value()), session, cmd, env);
              && Value() == d
              && m == if r.Ok? then ResultMessage(cmd.id, true, r.value, None, false) else Refusal(cmd, r.error)
    {
      var owner := browser.Control(session, env);
      if owner.None? {
        return Err(Internal);
      }
      if Acting(cmd.command) && !owner.value.Agent? {
        return Err(UserHasControl);
      }
      var required := Required(cmd.command);
      if required.Some? && required.value !in rules.capabilities {
        return Err(CapabilityUnavailable);
      }
      if cmd.command.Evaluate? {
        return Err(if JavascriptEval !in rules.capabilities then CapabilityUnavailable else UnknownCommand);
      }
      if cmd.command.Upload? {
        if "path" !in cmd.params {
          return Err(Internal);
        }
        if !rules.inside(cmd.params["path"]) {
          return Err(Malformed);
        }
      }
      var missing := MissingName(cmd);
      if missing {
        return Err(Internal);
      }
      if UsesSession(cmd.command) {
        r := browser.Do(session, cmd, env);
      } else if cmd.command.ControlState? {
        r := if env.raises then Err(Internal) else Ok(Payload(None, Some(OwnerName(owner.value)), ""));
      } else {
        r := Ok(BARE);
      }
    }

    method Execute(session: string, cmd: CommandMessage, now: int, env: Env) returns (r: ResultMessage)
      modifies this, browser
      ensures var (d, m) := Executed(rules, old(Value()), session, cmd, now, env);
              Value() == d && r == m
    {
      var stale := RefuseIfStale(cmd, now);
      if stale.Some? {
        return stale.value;
      }
      var payload := Try(session, cmd, env);
      r := if payload.Ok? then ResultMessage(cmd.id, true, payload.value, None, false) else Refusal(cmd, payload.error);
      Remember(cmd, r);
    }
  }
}

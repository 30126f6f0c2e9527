/** The server's view of one remote browsing context. */
module HostedSession {
  import opened Wrappers
  import opened HostProtocol
  import opened HostManager
  import D = Dispatcher
  import Platform

  type Owner = Platform.Owner

  const POLL_SECONDS: real := 2.0

  // ----- Specification -----

  function Sent(o: Outcome): Result<Payload, ErrorCode> {
    match o
    case Raised(e) => Err(e)
    case Returned(r) =>
      if r.ok then Ok(r.payload) else Err(if r.error.Some? then r.error.value else Internal)
  }

  /** A refusal is an answer; the host's own verdict overrides the default of success. */
  function ActionOk(o: Outcome): bool {
    match Sent(o)
    case Err(_) => false
    case Ok(p) => if p.ok.Some? then p.ok.value else true
  }

  function ParseOwner(name: Option<string>): Option<Owner> {
    if name == Some("agent") then Some(Platform.Agent)
    else if name == Some("delegated_to_user") then Some(Platform.DelegatedToUser)
    else if name == Some("user") then Some(Platform.User)
    else None
  }

  /** Anything but a well-formed answer reads as the user. */
  function Reading(o: Outcome): Owner {
    match Sent(o)
    case Err(_) => Platform.User
    case Ok(p) => var owner := ParseOwner(p.owner); if owner.Some? then owner.value else Platform.User
  }

  /** The number of further polls a wait can take. */
  function Polls(remaining: real): nat {
    if remaining <= 0.0 then 0 else (remaining / POLL_SECONDS).Floor + 1
  }

  // ----- The session as the source runs it -----

  class HostedBrowserSession {
    const manager: BrowserHostManager
    const host: string
    var owner: Owner

    constructor (manager: BrowserHostManager, host: string)
      ensures this.manager == manager && this.host == host && owner == Platform.Agent
    {
      this.manager, this.host, owner := manager, host, Platform.Agent;
    }

    /** The first half of `_send`: the command is handed to the manager under `id`. */
    method Send(command: HostCommand, key: Option<string>, id: string) returns (r: Result<nat, ErrorCode>)
      modifies manager
      ensures match old(manager.Value()).Begin(host, command, key, id)
              case Ok(m) => manager.Value() == m && r == Ok(|old(manager.waiters)|)
              case Err(e) => manager.Value() == old(manager.Value()) && r == Err(e)
    {
      r := manager.BeginDispatch(host, command, key, id);
    }

    /** An upload is sent without an idempotency key, and uploads are consequential: whatever
        the manager's state, no command leaves it and nobody is registered as waiting. */
    method UploadFile(id: string) returns (r: Result<nat, ErrorCode>)
      modifies manager
      ensures r.Err? && manager.Value() == old(manager.Value())
      ensures host in manager.hosts && manager.hosts[host] < |manager.conns| ==> r == Err(Malformed)
    {
      r := Send(Upload, None, id);
    }

    /** A click leaves exactly when its host is connected and the caller gave a key; it then
        waits under its own identifier on the current connection. */
    method Click(key: Option<string>, id: string) returns (r: Result<nat, ErrorCode>)
      modifies manager
      ensures r.Ok? <==>
              host in old(manager.hosts) && old(manager.hosts)[host] < |old(manager.conns)| && Present(key)
      ensures r.Ok? ==>
                && r.value == |old(manager.waiters)| < |manager.waiters|
                && manager.waiters[r.value] == Waiter(id, old(manager.hosts)[host], Sending, Unresolved)
                && host in manager.hosts && manager.hosts[host] < |manager.conns|
                && id in manager.conns[manager.hosts[host]].pending
                && manager.conns[manager.hosts[host]].pending[id] == r.value
      ensures r.Err? ==> manager.Value() == old(manager.Value())
    {
      r := Send(HostCommand.Click, key, id);
    }

    method RequestHumanControl(o: Outcome) returns (ok: bool)
      modifies this
      ensures ok == ActionOk(o)
      ensures owner == if ok then Platform.DelegatedToUser else old(owner)
    {
      ok := ActionOk(o);
      if ok {
        owner := Platform.DelegatedToUser;
      }
    }

    method ReclaimControl(o: Outcome) returns (ok: bool)
      modifies this
      ensures ok == ActionOk(o)
      ensures owner == if ok then Platform.Agent else old(owner)
    {
      ok := ActionOk(o);
      if ok {
        owner := Platform.Agent;
      }
    }

    method ControlState(o: Outcome) returns (r: Owner)
      modifies this
      ensures r == owner == Reading(o)
    {
      match Sent(o) {
        case Err(_) =>
          owner := Platform.User;
        case Ok(p) =>
          var parsed := ParseOwner(p.owner);
          owner := if parsed.Some? then parsed.value else Platform.User;
      }
      r := owner;
    }

    /** Polls until the agent owns the session or the time is up. `answers(i)` and
        `clock(i)` are what the i-th poll hears and when it ends; a sleep lasts at least
        as long as asked for.

        Success means the last poll read AGENT and no earlier one did. Failure means no
        poll did, and the whole time has passed. */
    method WaitForControl(timeout: real, start: real, answers: nat -> Outcome, clock: nat -> real)
      returns (ok: bool, polls: nat)
      requires forall i: nat ::
                 var remaining := start + timeout - clock(i);
                 clock(i + 1) >= clock(i) + (if remaining < POLL_SECONDS then remaining else POLL_SECONDS)
      modifies this
      ensures polls >= 1 && owner == Reading(answers(polls - 1))
      ensures forall i: nat :: i + 1 < polls ==> !Reading(answers(i)).Agent?
      ensures ok <==> owner.Agent?
      ensures !ok ==> clock(polls - 1) >= start + timeout
      ensures polls <= 1 + Polls(start + timeout - clock(0))
    {
      var deadline := start + timeout;
      polls := 0;
      while true
        invariant forall i: nat :: i < polls ==> !Reading(answers(i)).Agent?
        invariant polls + Polls(deadline - clock(polls)) <= Polls(deadline - clock(0))
        decreases Polls(deadline - clock(polls)), if deadline - clock(polls) <= 0.0 then 0 else 1
      {
        var o := ControlState(answers(polls));
        polls := polls + 1;
        if o.Agent? {
          return true, polls;
        }
        var remaining := deadline - clock(polls - 1);
        if remaining <= 0.0 {
          return false, polls;
        }
        PollShrinks(remaining, deadline - clock(polls));
      }
      ok := false;
    }
  }

  lemma PollShrinks(before: real, after: real)
    requires before > 0.0
    requires after <= before - (if before < POLL_SECONDS then before else POLL_SECONDS)
    ensures Polls(after) < Polls(before)
  {
    if after > 0.0 {
      assert after / POLL_SECONDS <= before / POLL_SECONDS - 1.0;
    }
  }

  // ----- Properties -----

  /** An action succeeded exactly if the host answered that it carried it out and the reply
      does not say otherwise. */
  lemma ActionOkIff(o: Outcome)
    ensures ActionOk(o) <==> o.Returned? && o.result.ok && o.result.payload.ok != Some(false)
  {
  }

  /** What a caller is told when the host's answer is no result: the error it was raised with,
      the one the host named, or an internal one. */
  lemma SentIs(o: Outcome)
    ensures Sent(o).Ok? <==> o.Returned? && o.result.ok
    ensures Sent(o).Ok? ==> Sent(o).value == o.result.payload
    ensures o.Raised? ==> Sent(o).error == o.error
    ensures o.Returned? && !o.result.ok ==>
              if o.result.error.Some? then Sent(o).error == o.result.error.value else Sent(o).error == Internal
  {
  }

  /** The time is polled in steps of two seconds, and the last poll falls on the deadline. */
  lemma PollsAre(remaining: real)
    ensures remaining <= 0.0 ==> Polls(remaining) == 0
    ensures remaining > 0.0 ==> 2.0 * (Polls(remaining) - 1) as real <= remaining < 2.0 * Polls(remaining) as real
  {
  }

  /** What the dispatcher writes for an owner reads back as that owner. */
  lemma OwnerRoundTrip(o: Owner)
    ensures ParseOwner(Some(D.OwnerName(o))) == Some(o)
  {
  }

  /** The ownership question as it crosses the wire: the frame was lost somewhere, or the
      host's dispatcher answered it. */
  ghost predicate Carried(o: Outcome, rules: D.Rules, desk: D.Desk, session: string, cmd: CommandMessage, now: int,
                          env: D.Env) {
    match o
    case Raised(_) => true
    case Returned(r) => r == D.Executed(rules, desk, session, cmd, now, env).1
  }

  /** The server believes it may drive only if the agent really owns the session on the
      host; whenever the question is answered, it reads exactly the true owner, and every
      other outcome reads as the user. */
  lemma FailsClosed(o: Outcome, rules: D.Rules, desk: D.Desk, session: string, cmd: CommandMessage, now: int,
                    env: D.Env)
    requires cmd.command.ControlState? && Carried(o, rules, desk, session, cmd, now, env)
    ensures Reading(o).Agent? ==> session in desk.owners && desk.owners[session].Agent?
    ensures Reading(o) ==
            if o.Returned? && !cmd.IsExpired(now) && env.ownerAnswers && !env.raises && session in desk.owners
            then desk.owners[session] else Platform.User
  {
    if session in desk.owners {
      OwnerRoundTrip(desk.owners[session]);
    }
  }
}

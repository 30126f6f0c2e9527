/** From the executor's submit click to the page: two attempts never share a key, and the
    host carries a keyed click out at most once however often its frame arrives. And from
    the host's record of the owner to the executor: a handoff closes on true ownership. */
module EndToEnd {
  import opened HostProtocol
  import opened Dispatcher
  import opened DispatcherResults
  import opened HostClient
  import opened Wrappers
  import opened Execution
  import opened HostManager
  import opened Platform
  import AttemptResults
  import AttemptService
  import HostedSession

  lemma SubmitKeysDiffer(a: string, b: string)
    ensures SubmitKey(a) == SubmitKey(b) <==> a == b
    ensures SubmitKey(a) != ""
  {
    var x, y := SubmitKey(a), SubmitKey(b);
    assert x[20..|x| - 7] == a && y[20..|y| - 7] == b;
  }

  /** The attempt's submit reaches a page of the host at most once, over every stream of
      frames the host serves: repeats of the same frame, late frames and frames sent again
      after a reconnection, in any of its sessions. A submit turned away because the user
      was driving uses the key up. */
  lemma {:induction false} SubmitReachesPageOnce(rules: Rules, frames: seq<Delivery>, attempt: string)
    ensures var desk := Serve(rules, Client(IDLE, {}, []), frames).desk; var key := SubmitKey(attempt);
            Times(desk.acts, key) <= 1 && (Times(desk.acts, key) == 1 ==> key in desk.results)
  {
    SubmitKeysDiffer(attempt, attempt);
    ServedOncePerKey(rules, frames, SubmitKey(attempt));
  }

  /** What crossed the wire when a handoff was taken back: the answers to the reclaim and to
      the ownership question, each lost or given by the host's own dispatcher. */
  datatype Exchange = Exchange(
    outcome: Outcome, desk: Desk, cmd: CommandMessage, now: int, env: Env)

  ghost predicate Crossed(x: Exchange, rules: Rules, session: string, command: HostCommand) {
    x.cmd.command == command && HostedSession.Carried(x.outcome, rules, x.desk, session, x.cmd, x.now, x.env)
  }

  ghost predicate Closed(w: World, i: nat) {
    i < |w.durable.interventions| && !w.durable.interventions[i].IsOpen()
  }

  /** The answers in front of the last effect are the server's reading of both exchanges. */
  ghost predicate HeardBoth(t: Trace, asked: Exchange, told: Exchange) {
    t.Then? && AttemptResults.EndsAsking(t.past, HostedSession.ActionOk(asked.outcome),
                                         HostedSession.Reading(told.outcome))
  }

  /** Joining both ends: if the server's reading of the two answers is what its executor
      acted on, a handoff closes into a queued resume only if the reclaim was carried out in
      the host's session, and the host's true owner of that session was then the agent. */
  lemma {:induction false} HandoffClosesOnTrueOwnership(
      w: World, i: nat, r: Resolution, answer: Option<string>, hosts: AttemptService.Hosts, now: int,
      rules: Rules, session: string, asked: Exchange, told: Exchange)
    requires i < |w.durable.interventions| && w.durable.interventions[i].IsOpen() && AttemptService.Resumes(r)
    requires w.durable.interventions[i].handoff
    requires Crossed(asked, rules, session, ReclaimControl) && Crossed(told, rules, session, ControlState)
    ensures var x := AttemptService.Resolve(w, i, r, answer, hosts, now).world;
            Closed(x, i) && HeardBoth(x.trace, asked, told) ==>
              && session in told.desk.owners && told.desk.owners[session].Agent?
              && Executed(rules, asked.desk, session, asked.cmd, asked.now, asked.env).0.acts ==
                 Acts.Then(asked.desk.acts, Act(session, ReclaimControl, asked.cmd.params, asked.cmd.key))
  {
    var x := AttemptService.Resolve(w, i, r, answer, hosts, now).world;
    if Closed(x, i) && HeardBoth(x.trace, asked, told) {
      AttemptResults.HandoffClosesOnlyAfterReclaim(w, i, r, answer, hosts, now);
      HostedSession.FailsClosed(told.outcome, rules, told.desk, session, told.cmd, told.now, told.env);
      AcceptedWasDone(rules, session, asked);
    }
  }

  /** A reclaim the server takes for accepted was carried out by the host's session. */
  lemma AcceptedWasDone(rules: Rules, session: string, asked: Exchange)
    requires Crossed(asked, rules, session, ReclaimControl) && HostedSession.ActionOk(asked.outcome)
    ensures Executed(rules, asked.desk, session, asked.cmd, asked.now, asked.env).0.acts ==
            Acts.Then(asked.desk.acts, Act(session, ReclaimControl, asked.cmd.params, asked.cmd.key))
  {
  }
}

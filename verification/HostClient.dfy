/** The host's frame handler: which session a command is for, and session creation, which
    never passes through the dispatcher. */
module HostClient {
  import opened Wrappers
  import opened HostProtocol
  import opened Dispatcher
  import opened DispatcherResults

  /** What the session factory does: nothing when there is none, else it opens a session. */
  datatype Factory = NoFactory | Opens(session: string, owner: Owner)

  /** `created` lists every session ever opened, in order. */
  datatype Client = Client(desk: Desk, sessions: set<string>, created: seq<string>)

  function SessionOf(cmd: CommandMessage): string {
    if cmd.session.Some? then cmd.session.value else ""
  }

  // ----- Specification -----

  function Handled(rules: Rules, c: Client, cmd: CommandMessage, now: int, env: Env, factory: Factory)
    : (Client, ResultMessage)
  {
    var id := SessionOf(cmd);
    if cmd.command.CreateSession? then
      if factory.NoFactory? then (c, Refusal(cmd, BackendUnavailable))
      else
        (Client(c.desk.(owners := c.desk.owners[factory.session := factory.owner]),
                c.sessions + {factory.session}, c.created + [factory.session]),
         ResultMessage(cmd.id, true, BARE.(body := factory.session), None, false))
    else if id !in c.sessions then
      (c, if cmd.command.Health? then ResultMessage(cmd.id, true, BARE, None, false) else Refusal(cmd, UnknownSession))
    else
      var (d, r) := Executed(rules, c.desk, id, cmd, now, env);
      (Client(d, if cmd.command.CloseSession? then c.sessions - {id} else c.sessions, c.created), r)
  }

  // ----- The handler as the source runs it -----

  class BrowserHostClient {
    const dispatcher: CommandDispatcher
    var sessions: set<string>
    var created: seq<string>

    function Value(): Client
      reads this, dispatcher, dispatcher.browser
    {
      Client(dispatcher.Value(), sessions, created)
    }

    constructor (dispatcher: CommandDispatcher)
      ensures this.dispatcher == dispatcher && sessions == {} && created == []
    {
      this.dispatcher, sessions, created := dispatcher, {}, [];
    }

    method Handle(cmd: CommandMessage, now: int, env: Env, factory: Factory) returns (r: ResultMessage)
      modifies this, dispatcher, dispatcher.browser
      ensures (Value(), r) == Handled(dispatcher.rules, old(Value()), cmd, now, env, factory)
    {
      if cmd.command.CreateSession? {
        if factory.NoFactory? {
          return Refusal(cmd, BackendUnavailable);
        }
        dispatcher.browser.owners := dispatcher.browser.owners[factory.session := factory.owner];
        sessions := sessions + {factory.session};
        created := created + [factory.session];
        return ResultMessage(cmd.id, true, BARE.(body := factory.session), None, false);
      }
      var id := SessionOf(cmd);
      if id !in sessions {
        if cmd.command.Health? {
          return ResultMessage(cmd.id, true, BARE, None, false);
        }
        return Refusal(cmd, UnknownSession);
      }
      r := dispatcher.Execute(id, cmd, now, env);
      if cmd.command.CloseSession? {
        sessions := sessions - {id};
      }
    }
  }

  // ----- Properties -----

  /** What a frame is told that no session handles: a creation without a factory that the
      backend is not there, a health check that all is well, anything else that the session
      is unknown. It changes nothing. A creation with a factory names the session opened. */
  lemma UnroutedIs(rules: Rules, c: Client, cmd: CommandMessage, now: int, env: Env, factory: Factory)
    requires cmd.command.CreateSession? || cmd.session.None? || cmd.session.value !in c.sessions
    requires "" !in c.sessions
    ensures var (d, r) := Handled(rules, c, cmd, now, env, factory);
            var opens := cmd.command.CreateSession? && factory.Opens?;
            && r.commandId == cmd.id && !r.deduplicated && (r.ok <==> r.error.None?)
            && (r.error == Some(BackendUnavailable) <==> cmd.command.CreateSession? && factory.NoFactory?)
            && (r.error == Some(UnknownSession) <==> !cmd.command.CreateSession? && !cmd.command.Health?)
            && (r.ok <==> opens || cmd.command.Health?)
            && (if opens then
                  && r.payload.body == factory.session && d.sessions == c.sessions + {factory.session}
                  && d.created == c.created + [factory.session]
                  && d.desk == c.desk.(owners := c.desk.owners[factory.session := factory.owner])
                else d == c)
  {
  }

  /** A frame for a session the client holds is handled by its dispatcher, and answered as it
      says. */
  lemma RoutedIs(rules: Rules, c: Client, cmd: CommandMessage, now: int, env: Env, factory: Factory)
    requires !cmd.command.CreateSession? && cmd.session.Some? && cmd.session.value in c.sessions
    ensures var (d, r) := Handled(rules, c, cmd, now, env, factory);
            && (d.desk, r) == Executed(rules, c.desk, cmd.session.value, cmd, now, env)
            && d.created == c.created
            && d.sessions == if cmd.command.CloseSession? then c.sessions - {cmd.session.value} else c.sessions
  {
  }

  datatype Delivery = Delivery(cmd: CommandMessage, now: int, env: Env, factory: Factory)

  function Serve(rules: Rules, c: Client, frames: seq<Delivery>): Client {
    if frames == [] then c
    else
      var f := frames[|frames| - 1];
      Handled(rules, Serve(rules, c, frames[..|frames| - 1]), f.cmd, f.now, f.env, f.factory).0
  }

  function Creations(frames: seq<Delivery>): nat {
    if frames == [] then 0
    else
      Creations(frames[..|frames| - 1]) + if frames[|frames| - 1].cmd.command.CreateSession? then 1 else 0
  }

  /** Session creation is declared consequential, yet here every frame opens another
      session: repeats under one key and frames past their deadline included. */
  lemma {:induction false} EveryCreateOpens(rules: Rules, c: Client, frames: seq<Delivery>)
    requires forall i :: 0 <= i < |frames| ==> frames[i].factory.Opens?
    ensures |Serve(rules, c, frames).created| == |c.created| + Creations(frames)
  {
    if frames != [] {
      EveryCreateOpens(rules, c, frames[..|frames| - 1]);
    }
  }

  /** All other consequential commands keep the dispatcher's promise across every session
      the client serves. */
  lemma {:induction false} ServedOncePerKey(rules: Rules, frames: seq<Delivery>, key: string)
    requires key != ""
    ensures AtMostOnce(Serve(rules, Client(IDLE, {}, []), frames).desk, key)
  {
    if frames != [] {
      ServedOncePerKey(rules, frames[..|frames| - 1], key);
      var c := Serve(rules, Client(IDLE, {}, []), frames[..|frames| - 1]);
      var f := frames[|frames| - 1];
      StepAtMostOnce(rules, c.desk, Arrives(SessionOf(f.cmd), f.cmd, f.now, f.env), key);
    }
  }

  /** No frame reaches a session the client does not hold. */
  lemma OnlyOwnSessions(rules: Rules, c: Client, f: Delivery)
    ensures var n := Handled(rules, c, f.cmd, f.now, f.env, f.factory).0;
            n.desk.acts != c.desk.acts ==>
              SessionOf(f.cmd) in c.sessions
              && n.desk.acts == Then(c.desk.acts, Act(SessionOf(f.cmd), f.cmd.command, f.cmd.params, f.cmd.key))
  {
    ReachesSessionIff(rules, c.desk, SessionOf(f.cmd), f.cmd, f.now, f.env);
  }

  /** A close frame forgets its session even when nothing was closed: the two come apart
      exactly when the frame is late or the ownership question goes unanswered. */
  lemma CloseForgetsEvenUnclosed(rules: Rules, c: Client, f: Delivery)
    requires f.cmd.command.CloseSession? && SessionOf(f.cmd) in c.sessions && SessionOf(f.cmd) in c.desk.owners
    ensures var n := Handled(rules, c, f.cmd, f.now, f.env, f.factory).0;
            && SessionOf(f.cmd) !in n.sessions
            && (n.desk.acts == c.desk.acts <==> f.cmd.IsExpired(f.now) || !f.env.ownerAnswers)
  {
    ReachesSessionIff(rules, c.desk, SessionOf(f.cmd), f.cmd, f.now, f.env);
  }
}

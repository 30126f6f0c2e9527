/** Live Browser Host connections and the commands in flight on them.

    A live connection is named by its position in `conns`, which stands for the
    identity of the source's object: a displaced connection keeps its position and
    late frames may still arrive on it. A waiting caller and its future are named by
    their position in `waiters`.
 */
module HostManager {
  import opened Wrappers
  import opened HostProtocol

  datatype Future = Unresolved | Answered(result: ResultMessage) | Broken(error: ErrorCode) | Abandoned

  datatype Outcome = Returned(result: ResultMessage) | Raised(error: ErrorCode)

  /** Where the caller of `dispatch` is suspended. `Dropped` is a caller cancelled
      inside the send, which leaves its future registered. */
  datatype Phase = Sending | Waiting | Ended(outcome: Outcome) | Dropped

  datatype Waiter = Waiter(command: string, conn: nat, phase: Phase, future: Future) {
    predicate Live() { phase.Sending? || phase.Waiting? }
  }

  datatype LiveHost = LiveHost(host: string, pending: map<string, nat>, outboundSeq: nat, inboundSeq: int)

  // ----- Specification -----

  /** Every unresolved future among `fs` fails with `e`. */
  function FailFutures(ws: seq<Waiter>, fs: set<nat>, e: ErrorCode): (r: seq<Waiter>)
    ensures |r| == |ws|
    ensures forall i :: 0 <= i < |ws| ==>
              r[i] == if i in fs && ws[i].future.Unresolved? then ws[i].(future := Broken(e)) else ws[i]
  {
    seq(|ws|, i requires 0 <= i < |ws| =>
      if i in fs && ws[i].future.Unresolved? then ws[i].(future := Broken(e)) else ws[i])
  }

  datatype Manager = Manager(hosts: map<string, nat>, conns: seq<LiveHost>, waiters: seq<Waiter>) {
    predicate Current(c: nat) {
      c < |conns| && conns[c].host in hosts && hosts[conns[c].host] == c
    }

    function FailPending(c: nat, e: ErrorCode): Manager
      requires c < |conns|
    {
      this.(waiters := FailFutures(waiters, conns[c].pending.Values, e),
      conns := conns[c := conns[c].(pending := map[])])
    }

    function Attach(host: string, seqNo: int): Manager {
      var m := this.(hosts := hosts[host := |conns|], conns := conns + [LiveHost(host, map[], 0, seqNo)]);
      if host in hosts && hosts[host] < |conns| then m.FailPending(hosts[host], ErrorCode.Cancelled) else m
    }

    function Detach(host: string): Manager {
      if host !in hosts then this
      else
        var m := this.(hosts := hosts - {host});
        if hosts[host] < |conns| then m.FailPending(hosts[host], BackendUnavailable) else m
    }

    function Forget(c: nat, id: string): Manager
      requires c < |conns|
    {
      this.(conns := conns[c := conns[c].(pending := conns[c].pending - {id})])
    }

    function HandleResult(c: nat, r: ResultMessage): Manager
      requires c < |conns|
    {
      if r.commandId !in conns[c].pending then this
      else
        var f := conns[c].pending[r.commandId];
        var m := Forget(c, r.commandId);
        if f < |waiters| && waiters[f].future.Unresolved? then
          m.(waiters := waiters[f := waiters[f].(future := Answered(r))])
        else m
    }

    /** A frame is handled only when its sequence number has not been seen. `None` is
        any frame other than a result: a heartbeat, an event or an error report. */
    function Frame(c: nat, seqNo: int, r: Option<ResultMessage>): Manager
      requires c < |conns|
    {
      if seqNo <= conns[c].inboundSeq then this
      else
        var m := this.(conns := conns[c := conns[c].(inboundSeq := seqNo)]);
        if r.Some? then m.HandleResult(c, r.value) else m
    }

    /** The part of `dispatch` before its first await. */
    function Begin(host: string, command: HostCommand, key: Option<string>, id: string): Result<Manager, ErrorCode> {
      if host !in hosts || hosts[host] >= |conns| then Err(BackendUnavailable)
      else if Consequential(command) && !Present(key) then Err(Malformed)
      else
        var c := hosts[host];
        var live := conns[c].(outboundSeq := conns[c].outboundSeq + 1, pending := conns[c].pending[id := |waiters|]);
        Ok(this.(conns := conns[c := live], waiters := waiters + [Waiter(id, c, Sending, Unresolved)]))
    }

    /** The caller leaves `dispatch` with `o`; a future nobody resolved is abandoned. */
    function Leave(f: nat, o: Outcome): Manager
      requires f < |waiters| && waiters[f].conn < |conns|
    {
      var w := waiters[f];
      var future := if w.future.Unresolved? then Abandoned else w.future;
      Forget(w.conn, w.command).(waiters := waiters[f := w.(phase := Ended(o), future := future)])
    }
  }

  /** What a woken caller gets from its future. */
  function OutcomeOf(future: Future): Outcome
    requires !future.Unresolved?
  {
    match future
    case Answered(r) => Returned(r)
    case Broken(e) => Raised(e)
    case Abandoned => Raised(ErrorCode.Cancelled)
  }

  // ----- The manager as the source runs it -----

  class BrowserHostManager {
    var hosts: map<string, nat>
    var conns: seq<LiveHost>
    var waiters: seq<Waiter>

    function Value(): Manager
      reads this
    {
      Manager(hosts, conns, waiters)
    }

    constructor ()
      ensures Value() == Manager(map[], [], [])
    {
      hosts, conns, waiters := map[], [], [];
    }

    method FailPending(c: nat, e: ErrorCode)
      requires c < |conns|
      modifies this
      ensures Value() == old(Value()).FailPending(c, e)
    {
      var left := conns[c].pending.Values;
      while left != {}
        invariant conns == old(conns) && hosts == old(hosts)
        invariant left <= conns[c].pending.Values
        invariant waiters == FailFutures(old(waiters), conns[c].pending.Values - left, e)
      {
        var f :| f in left;
        if f < |waiters| && waiters[f].future.Unresolved? {
          waiters := waiters[f := waiters[f].(future := Broken(e))];
        }
        left := left - {f};
      }
      conns := conns[c := conns[c].(pending := map[])];
    }

    method Attach(host: string, seqNo: int)
      modifies this
      ensures Value() == old(Value()).Attach(host, seqNo)
    {
      var existing := if host in hosts then Some(hosts[host]) else None;
      var before := |conns|;
      conns := conns + [LiveHost(host, map[], 0, seqNo)];
      hosts := hosts[host := before];
      if existing.Some? && existing.value < before {
        FailPending(existing.value, ErrorCode.Cancelled);
      }
    }

    method Detach(host: string)
      modifies this
      ensures Value() == old(Value()).Detach(host)
    {
      if host in hosts {
        var c := hosts[host];
        hosts := hosts - {host};
        if c < |conns| {
          FailPending(c, BackendUnavailable);
        }
      }
    }

    method CheckSequence(c: nat, seqNo: int) returns (isNew: bool)
      requires c < |conns|
      modifies this
      ensures isNew == (old(conns)[c].inboundSeq < seqNo)
      ensures hosts == old(hosts) && waiters == old(waiters)
      ensures conns == if isNew then old(conns)[c := old(conns)[c].(inboundSeq := seqNo)] else old(conns)
    {
      if seqNo <= conns[c].inboundSeq {
        return false;
      }
      conns := conns[c := conns[c].(inboundSeq := seqNo)];
      isNew := true;
    }

    method HandleResult(c: nat, r: ResultMessage)
      requires c < |conns|
      modifies this
      ensures Value() == old(Value()).HandleResult(c, r)
    {
      if r.commandId in conns[c].pending {
        var f := conns[c].pending[r.commandId];
        conns := conns[c := conns[c].(pending := conns[c].pending - {r.commandId})];
        if f < |waiters| && waiters[f].future.Unresolved? {
          waiters := waiters[f := waiters[f].(future := Answered(r))];
        }
      }
    }

    method Pump(c: nat, seqNo: int, r: Option<ResultMessage>)
      requires c < |conns|
      modifies this
      ensures Value() == old(Value()).Frame(c, seqNo, r)
    {
      var isNew := CheckSequence(c, seqNo);
      if isNew && r.Some? {
        HandleResult(c, r.value);
      }
    }

    method BeginDispatch(host: string, command: HostCommand, key: Option<string>, id: string)
      returns (r: Result<nat, ErrorCode>)
      modifies this
      ensures match old(Value()).Begin(host, command, key, id)
              case Ok(m) => Value() == m && r == Ok(|old(waiters)|)
              case Err(e) => Value() == old(Value()) && r == Err(e)
    {
      if host !in hosts || hosts[host] >= |conns| {
        return Err(BackendUnavailable);
      }
      if Consequential(command) && !Present(key) {
        return Err(Malformed);
      }
      var c := hosts[host];
      var f := |waiters|;
      conns := conns[c := conns[c].(outboundSeq := conns[c].outboundSeq + 1)];
      waiters := waiters + [Waiter(id, c, Sending, Unresolved)];
      conns := conns[c := conns[c].(pending := conns[c].pending[id := f])];
      r := Ok(f);
    }

    /** Every way out of `dispatch` after the send forgets the command. */
    method LeaveDispatch(f: nat, o: Outcome)
      requires f < |waiters| && waiters[f].conn < |conns|
      modifies this
      ensures Value() == old(Value()).Leave(f, o)
    {
      var w := waiters[f];
      conns := conns[w.conn := conns[w.conn].(pending := conns[w.conn].pending - {w.command})];
      if w.future.Unresolved? {
        w := w.(future := Abandoned);
      }
      waiters := waiters[f := w.(phase := Ended(o))];
    }
  }

  // ----- Interleavings -----

  datatype Event =
    | Attaches(host: string, seqNo: int)
    | Detaches(host: string)
    | Begins(host: string, command: HostCommand, key: Option<string>, id: string)
    | SendCompletes(f: nat)
    | SendFails(f: nat)
    | SendCancelled(f: nat)
    | FrameArrives(conn: nat, seqNo: int, message: Option<ResultMessage>)
    | TimesOut(f: nat)
    | WaitCancelled(f: nat)
    | Wakes(f: nat)

  /** Command identifiers are freshly generated; an identifier in use is never drawn again. */
  ghost predicate FreshId(m: Manager, id: string) {
    forall f :: 0 <= f < |m.waiters| ==> m.waiters[f].command != id
  }

  ghost predicate Suspended(m: Manager, f: nat, p: Phase) {
    f < |m.waiters| && m.waiters[f].phase == p && m.waiters[f].conn < |m.conns|
  }

  ghost function Step(m: Manager, e: Event): Manager {
    match e
    case Attaches(host, seqNo) => m.Attach(host, seqNo)
    case Detaches(host) => m.Detach(host)
    case Begins(host, command, key, id) =>
      var r := m.Begin(host, command, key, id);
      if r.Ok? && FreshId(m, id) then r.value else m
    case SendCompletes(f) =>
      if Suspended(m, f, Sending) then m.(waiters := m.waiters[f := m.waiters[f].(phase := Waiting)]) else m
    case SendFails(f) => if Suspended(m, f, Sending) then m.Leave(f, Raised(BackendUnavailable)) else m
    case SendCancelled(f) =>
      if Suspended(m, f, Sending) then m.(waiters := m.waiters[f := m.waiters[f].(phase := Dropped)]) else m
    case FrameArrives(c, seqNo, r) => if c < |m.conns| then m.Frame(c, seqNo, r) else m
    case TimesOut(f) => if Suspended(m, f, Waiting) then m.Leave(f, Raised(TimedOut)) else m
    case WaitCancelled(f) => if Suspended(m, f, Waiting) then m.Leave(f, Raised(ErrorCode.Cancelled)) else m
    case Wakes(f) =>
      if Suspended(m, f, Waiting) && !m.waiters[f].future.Unresolved? then
        m.Leave(f, OutcomeOf(m.waiters[f].future))
      else m
  }

  ghost function Run(m: Manager, events: seq<Event>): Manager {
    if events == [] then m else Step(Run(m, events[..|events| - 1]), events[|events| - 1])
  }

  const EMPTY: Manager := Manager(map[], [], [])

  // ----- What every interleaving keeps -----

  ghost predicate Registry(m: Manager) {
    && (forall h :: h in m.hosts ==> m.hosts[h] < |m.conns| && m.conns[m.hosts[h]].host == h)
    && (forall c :: 0 <= c < |m.conns| && !m.Current(c) ==> m.conns[c].pending == map[])
  }

  /** A pending entry names the one caller waiting for that command on that connection. */
  ghost predicate EntryOk(m: Manager, c: nat, id: string)
    requires c < |m.conns| && id in m.conns[c].pending
  {
    var f := m.conns[c].pending[id];
    && f < |m.waiters| && m.waiters[f].command == id && m.waiters[f].conn == c
    && m.waiters[f].future.Unresolved? && !m.waiters[f].phase.Ended?
  }

  /** A caller sits where `dispatch` put it, and what it was told is about its own command. */
  ghost predicate WaiterOk(m: Manager, f: nat)
    requires f < |m.waiters|
  {
    var w := m.waiters[f];
    && w.conn < |m.conns|
    && (w.future.Unresolved? ==>
          !w.phase.Ended? && w.command in m.conns[w.conn].pending && m.conns[w.conn].pending[w.command] == f)
    && (w.future.Answered? ==> w.future.result.commandId == w.command)
    && (w.phase.Ended? && w.phase.outcome.Returned? ==> w.future == Answered(w.phase.outcome.result))
  }

  ghost predicate Inv(m: Manager) {
    && Registry(m)
    && (forall c, id :: 0 <= c < |m.conns| && id in m.conns[c].pending ==> EntryOk(m, c, id))
    && (forall f :: 0 <= f < |m.waiters| ==> WaiterOk(m, f))
    && (forall f, g :: 0 <= f < g < |m.waiters| ==> m.waiters[f].command != m.waiters[g].command)
  }

  lemma FailPendingInv(m: Manager, c: nat, e: ErrorCode)
    requires c < |m.conns|
    requires forall h :: h in m.hosts ==> m.hosts[h] < |m.conns| && m.conns[m.hosts[h]].host == h
    requires forall k :: 0 <= k < |m.conns| && k != c && !m.Current(k) ==> m.conns[k].pending == map[]
    requires forall k, id :: 0 <= k < |m.conns| && id in m.conns[k].pending ==> EntryOk(m, k, id)
    requires forall f :: 0 <= f < |m.waiters| ==> WaiterOk(m, f)
    requires forall f, g :: 0 <= f < g < |m.waiters| ==> m.waiters[f].command != m.waiters[g].command
    ensures Inv(m.FailPending(c, e)) && m.FailPending(c, e).conns[c].pending == map[]
  {
    var n := m.FailPending(c, e);
    var pending := m.conns[c].pending;
    forall k, id | 0 <= k < |n.conns| && id in n.conns[k].pending ensures EntryOk(n, k, id) {
      assert k != c && EntryOk(m, k, id);
    }
    forall f | 0 <= f < |n.waiters| ensures WaiterOk(n, f) {
      assert WaiterOk(m, f);
      if m.waiters[f].future.Unresolved? && m.waiters[f].conn == c {
        assert pending[m.waiters[f].command] == f;
        assert f in pending.Values;
      }
    }
  }

  lemma AttachInv(m: Manager, host: string, seqNo: int)
    requires Inv(m)
    ensures Inv(m.Attach(host, seqNo))
  {
    var n := m.(hosts := m.hosts[host := |m.conns|], conns := m.conns + [LiveHost(host, map[], 0, seqNo)]);
    forall c, id | 0 <= c < |n.conns| && id in n.conns[c].pending ensures EntryOk(n, c, id) {
      assert c < |m.conns| && EntryOk(m, c, id);
    }
    forall f | 0 <= f < |n.waiters| ensures WaiterOk(n, f) {
      assert WaiterOk(m, f);
    }
    forall c | 0 <= c < |n.conns| && !(host in m.hosts && c == m.hosts[host]) && !n.Current(c)
      ensures n.conns[c].pending == map[]
    {
      if c < |m.conns| {
        assert !m.Current(c);
      }
    }
    if host in m.hosts {
      FailPendingInv(n, m.hosts[host], ErrorCode.Cancelled);
    }
  }

  lemma {:induction false} DetachInv(m: Manager, host: string)
    requires Inv(m)
    ensures Inv(m.Detach(host))
  {
    if host in m.hosts {
      var n := m.(hosts := m.hosts - {host});
      forall c, id | 0 <= c < |n.conns| && id in n.conns[c].pending ensures EntryOk(n, c, id) {
        assert EntryOk(m, c, id);
      }
      forall f | 0 <= f < |n.waiters| ensures WaiterOk(n, f) {
        assert WaiterOk(m, f);
      }
      forall c | 0 <= c < |n.conns| && c != m.hosts[host] && !n.Current(c)
        ensures n.conns[c].pending == map[]
      {
        assert !m.Current(c);
      }
      FailPendingInv(n, m.hosts[host], BackendUnavailable);
    }
  }

  lemma BeginInv(m: Manager, host: string, command: HostCommand, key: Option<string>, id: string)
    requires Inv(m) && FreshId(m, id) && m.Begin(host, command, key, id).Ok?
    ensures Inv(m.Begin(host, command, key, id).value)
  {
    var n := m.Begin(host, command, key, id).value;
    var c := m.hosts[host];
    forall k, i | 0 <= k < |n.conns| && i in n.conns[k].pending ensures EntryOk(n, k, i) {
      if !(k == c && i == id) {
        assert EntryOk(m, k, i);
      }
    }
    forall f | 0 <= f < |n.waiters| ensures WaiterOk(n, f) {
      if f < |m.waiters| {
        assert WaiterOk(m, f);
      }
    }
    forall k | 0 <= k < |n.conns| && !n.Current(k) ensures n.conns[k].pending == map[] {
      assert !m.Current(k);
    }
  }

  lemma LeaveInv(m: Manager, f: nat, o: Outcome)
    requires Inv(m) && f < |m.waiters| && m.waiters[f].Live()
    requires m.waiters[f].conn < |m.conns|
    requires o.Returned? ==> m.waiters[f].future == Answered(o.result)
    ensures Inv(m.Leave(f, o))
  {
    var n := m.Leave(f, o);
    var w := m.waiters[f];
    forall k, id | 0 <= k < |n.conns| && id in n.conns[k].pending ensures EntryOk(n, k, id) {
      assert EntryOk(m, k, id);
      assert m.conns[k].pending[id] != f;
    }
    forall g | 0 <= g < |n.waiters| ensures WaiterOk(n, g) {
      assert WaiterOk(m, g);
    }
    forall k | 0 <= k < |n.conns| && !n.Current(k) ensures n.conns[k].pending == map[] {
      assert !m.Current(k);
    }
  }

  lemma FrameInv(m: Manager, c: nat, seqNo: int, r: Option<ResultMessage>)
    requires Inv(m) && c < |m.conns|
    ensures Inv(m.Frame(c, seqNo, r))
  {
    if seqNo > m.conns[c].inboundSeq {
      var n := m.(conns := m.conns[c := m.conns[c].(inboundSeq := seqNo)]);
      SameShapeInv(m, n);
      if r.Some? {
        ResultInv(n, c, r.value);
      }
    }
  }

  /** The invariant does not look at sequence numbers. */
  lemma SameShapeInv(m: Manager, n: Manager)
    requires Inv(m) && n.hosts == m.hosts && n.waiters == m.waiters && |n.conns| == |m.conns|
    requires forall c :: 0 <= c < |m.conns| ==>
               n.conns[c].host == m.conns[c].host && n.conns[c].pending == m.conns[c].pending
    ensures Inv(n)
  {
    forall c, id | 0 <= c < |n.conns| && id in n.conns[c].pending ensures EntryOk(n, c, id) {
      assert EntryOk(m, c, id);
    }
    forall f | 0 <= f < |n.waiters| ensures WaiterOk(n, f) {
      assert WaiterOk(m, f);
    }
    forall c | 0 <= c < |n.conns| && !n.Current(c) ensures n.conns[c].pending == map[] {
      assert !m.Current(c);
    }
  }

  lemma ResultInv(m: Manager, c: nat, r: ResultMessage)
    requires Inv(m) && c < |m.conns|
    ensures Inv(m.HandleResult(c, r))
  {
    if r.commandId in m.conns[c].pending {
      var n := m.HandleResult(c, r);
      assert EntryOk(m, c, r.commandId);
      var f := m.conns[c].pending[r.commandId];
      forall k, id | 0 <= k < |n.conns| && id in n.conns[k].pending ensures EntryOk(n, k, id) {
        assert EntryOk(m, k, id);
        assert m.conns[k].pending[id] != f;
      }
      forall g | 0 <= g < |n.waiters| ensures WaiterOk(n, g) {
        assert WaiterOk(m, g);
      }
      forall k | 0 <= k < |n.conns| && !n.Current(k) ensures n.conns[k].pending == map[] {
        assert !m.Current(k);
      }
    }
  }

  lemma PhaseInv(m: Manager, f: nat, p: Phase)
    requires Inv(m) && f < |m.waiters| && m.waiters[f].Live() && !p.Ended?
    ensures Inv(m.(waiters := m.waiters[f := m.waiters[f].(phase := p)]))
  {
    var n := m.(waiters := m.waiters[f := m.waiters[f].(phase := p)]);
    forall k, id | 0 <= k < |n.conns| && id in n.conns[k].pending ensures EntryOk(n, k, id) {
      assert EntryOk(m, k, id);
    }
    forall g | 0 <= g < |n.waiters| ensures WaiterOk(n, g) {
      assert WaiterOk(m, g);
    }
    forall k | 0 <= k < |n.conns| && !n.Current(k) ensures n.conns[k].pending == map[] {
      assert !m.Current(k);
    }
  }

  lemma StepInv(m: Manager, e: Event)
    requires Inv(m)
    ensures Inv(Step(m, e))
  {
    match e
    case Attaches(host, seqNo) => AttachInv(m, host, seqNo);
    case Detaches(host) => DetachInv(m, host);
    case Begins(host, command, key, id) =>
      if m.Begin(host, command, key, id).Ok? && FreshId(m, id) {
        BeginInv(m, host, command, key, id);
      }
    case SendCompletes(f) => if Suspended(m, f, Sending) { PhaseInv(m, f, Waiting); }
    case SendFails(f) => if Suspended(m, f, Sending) { LeaveInv(m, f, Raised(BackendUnavailable)); }
    case SendCancelled(f) => if Suspended(m, f, Sending) { PhaseInv(m, f, Dropped); }
    case FrameArrives(c, seqNo, r) => if c < |m.conns| { FrameInv(m, c, seqNo, r); }
    case TimesOut(f) => if Suspended(m, f, Waiting) { LeaveInv(m, f, Raised(TimedOut)); }
    case WaitCancelled(f) => if Suspended(m, f, Waiting) { LeaveInv(m, f, Raised(ErrorCode.Cancelled)); }
    case Wakes(f) =>
      if Suspended(m, f, Waiting) && !m.waiters[f].future.Unresolved? {
        LeaveInv(m, f, OutcomeOf(m.waiters[f].future));
      }
  }

  lemma {:induction false} RunInv(m: Manager, events: seq<Event>)
    requires Inv(m)
    ensures Inv(Run(m, events))
  {
    if events != [] {
      RunInv(m, events[..|events| - 1]);
      StepInv(Run(m, events[..|events| - 1]), events[|events| - 1]);
    }
  }
}

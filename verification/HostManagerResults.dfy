/** What holds of every interleaving of connections, frames, timeouts and cancellations. */
module HostManagerResults {
  import opened Wrappers
  import opened HostProtocol
  import opened HostManager

  /** An unresolved caller is registered in exactly one place, under its own command, on
      a connection that is still the current one: nobody waits on a browser that is gone.
      Conversely every registered entry is a caller nobody has answered yet. */
  lemma {:induction false} OneHome(events: seq<Event>, f: nat)
    requires f < |Run(EMPTY, events).waiters| && Run(EMPTY, events).waiters[f].future.Unresolved?
    ensures var m := Run(EMPTY, events); var w := m.waiters[f];
            && m.Current(w.conn)
            && (forall c, id :: 0 <= c < |m.conns| && id in m.conns[c].pending ==>
                  (m.conns[c].pending[id] == f <==> c == w.conn && id == w.command))
            && w.command in m.conns[w.conn].pending
  {
    var m := Run(EMPTY, events);
    RunInv(EMPTY, events);
    assert WaiterOk(m, f);
    forall c, id | 0 <= c < |m.conns| && id in m.conns[c].pending
      ensures m.conns[c].pending[id] == f <==> c == m.waiters[f].conn && id == m.waiters[f].command
    {
      assert EntryOk(m, c, id);
    }
  }

  /** Only an unanswered caller is registered. It is still inside `dispatch`, unless it was
      cancelled while sending: that entry stays behind with nobody to read it. */
  lemma {:induction false} EntriesAreUnanswered(events: seq<Event>, c: nat, id: string)
    requires c < |Run(EMPTY, events).conns| && id in Run(EMPTY, events).conns[c].pending
    ensures var m := Run(EMPTY, events); var f := m.conns[c].pending[id];
            && f < |m.waiters| && m.waiters[f].command == id
            && m.waiters[f].future.Unresolved? && (m.waiters[f].Live() || m.waiters[f].phase.Dropped?)
  {
    RunInv(EMPTY, events);
    assert EntryOk(Run(EMPTY, events), c, id);
  }

  // ----- Displaced and detached connections -----

  lemma StepKeepsRetired(m: Manager, e: Event, c: nat)
    requires Inv(m) && c < |m.conns| && !m.Current(c)
    ensures c < |Step(m, e).conns| && !Step(m, e).Current(c)
  {
  }

  lemma {:induction false} RunKeepsRetired(m: Manager, events: seq<Event>, c: nat)
    requires Inv(m) && c < |m.conns| && !m.Current(c)
    ensures var n := Run(m, events); Inv(n) && c < |n.conns| && !n.Current(c) && n.conns[c].pending == map[]
  {
    RunInv(m, events);
    if events != [] {
      RunKeepsRetired(m, events[..|events| - 1], c);
      StepKeepsRetired(Run(m, events[..|events| - 1]), events[|events| - 1], c);
    }
  }

  /** Whatever happens after a reconnection, the displaced connection never again has a
      caller waiting on it and never becomes current. */
  lemma {:induction false} DisplacedForGood(before: seq<Event>, host: string, seqNo: int, after: seq<Event>, c: nat)
    requires c < |Run(EMPTY, before).conns| && Run(EMPTY, before).conns[c].host == host
    ensures var n := Run(Step(Run(EMPTY, before), Attaches(host, seqNo)), after);
            c < |n.conns| && !n.Current(c) && n.conns[c].pending == map[]
  {
    RunInv(EMPTY, before);
    var m := Run(EMPTY, before);
    StepInv(m, Attaches(host, seqNo));
    RunKeepsRetired(Step(m, Attaches(host, seqNo)), after, c);
  }

  lemma {:induction false} DetachedForGood(before: seq<Event>, host: string, after: seq<Event>, c: nat)
    requires c < |Run(EMPTY, before).conns| && Run(EMPTY, before).conns[c].host == host
    ensures var n := Run(Step(Run(EMPTY, before), Detaches(host)), after);
            c < |n.conns| && !n.Current(c) && n.conns[c].pending == map[]
  {
    RunInv(EMPTY, before);
    var m := Run(EMPTY, before);
    StepInv(m, Detaches(host));
    RunKeepsRetired(Step(m, Detaches(host)), after, c);
  }

  // ----- Futures -----

  lemma StepKeepsResolved(m: Manager, e: Event, f: nat)
    requires Inv(m) && f < |m.waiters| && !m.waiters[f].future.Unresolved?
    ensures f < |Step(m, e).waiters| && Step(m, e).waiters[f].future == m.waiters[f].future
    ensures Step(m, e).waiters[f].command == m.waiters[f].command
  {
  }

  /** A future resolves at most once: a later result, failure or timeout does not replace
      what it holds. */
  lemma {:induction false} ResolvedOnce(m: Manager, events: seq<Event>, f: nat)
    requires Inv(m) && f < |m.waiters| && !m.waiters[f].future.Unresolved?
    ensures var n := Run(m, events);
            f < |n.waiters| && n.waiters[f].future == m.waiters[f].future
              && n.waiters[f].command == m.waiters[f].command
  {
    if events != [] {
      var past := events[..|events| - 1];
      ResolvedOnce(m, past, f);
      RunInv(m, past);
      StepKeepsResolved(Run(m, past), events[|events| - 1], f);
    }
  }

  /** A caller is only ever handed the reply to its own command. */
  lemma OwnReply(events: seq<Event>, f: nat)
    requires f < |Run(EMPTY, events).waiters|
    ensures var w := Run(EMPTY, events).waiters[f];
            && (w.future.Answered? ==> w.future.result.commandId == w.command)
            && (w.phase.Ended? && w.phase.outcome.Returned? ==> w.phase.outcome.result.commandId == w.command)
            && (w.phase.Ended? ==> !w.future.Unresolved?)
  {
    RunInv(EMPTY, events);
    assert WaiterOk(Run(EMPTY, events), f);
  }

  /** A result frame answers a waiting caller exactly when it arrives on the caller's own
      connection, names its command and has a sequence number above all accepted ones. */
  lemma AnswersExactly(m: Manager, f: nat, c: nat, seqNo: int, r: ResultMessage)
    requires Inv(m) && f < |m.waiters| && m.waiters[f].future.Unresolved? && c < |m.conns|
    ensures Step(m, FrameArrives(c, seqNo, Some(r))).waiters[f].future.Answered?
            <==> c == m.waiters[f].conn && r.commandId == m.waiters[f].command && seqNo > m.conns[c].inboundSeq
    ensures var g := Step(m, FrameArrives(c, seqNo, Some(r))).waiters[f].future; g.Answered? ==> g.result == r
  {
    assert WaiterOk(m, f);
    if r.commandId in m.conns[c].pending {
      assert EntryOk(m, c, r.commandId);
    }
  }

  /** An answered caller returns that answer when it wakes. */
  lemma AnsweredReturns(m: Manager, f: nat)
    requires Inv(m) && f < |m.waiters| && m.waiters[f].phase.Waiting? && m.waiters[f].future.Answered?
    ensures Step(m, Wakes(f)).waiters[f].phase == Ended(Returned(m.waiters[f].future.result))
  {
    assert WaiterOk(m, f);
  }

  // ----- How a dispatch begins and ends -----

  /** A command for a host that is not connected is refused as such; on a connected one a
      command whose repetition is not free is refused as malformed without a key. Any other
      is numbered, registered and sent on the current connection, under its own identifier. */
  lemma BeginIs(m: Manager, host: string, command: HostCommand, key: Option<string>, id: string)
    requires Inv(m)
    ensures var r := m.Begin(host, command, key, id); var keyless := key.None? || key.value == "";
            && (r == Err(BackendUnavailable) <==> host !in m.hosts)
            && (r == Err(Malformed) <==> host in m.hosts && Consequential(command) && keyless)
            && (r.Ok? <==> host in m.hosts && !(Consequential(command) && keyless))
            && (r.Ok? ==>
                  var n := r.value; var c := m.hosts[host];
                  && n.hosts == m.hosts && |n.conns| == |m.conns| && |n.waiters| == |m.waiters| + 1
                  && n.waiters[..|m.waiters|] == m.waiters
                  && n.waiters[|m.waiters|] == Waiter(id, c, Sending, Unresolved)
                  && n.conns[c].outboundSeq == m.conns[c].outboundSeq + 1
                  && n.conns[c].pending == m.conns[c].pending[id := |m.waiters|]
                  && forall k :: 0 <= k < |m.conns| && k != c ==> n.conns[k] == m.conns[k])
  {
  }

  lemma RunOne(m: Manager, events: seq<Event>, e: Event)
    ensures Run(m, events + [e]) == Step(Run(m, events), e)
  {
    assert (events + [e])[..|events|] == events;
  }

  /** A command sent to a connected host whose reply carries a new number returns that reply. */
  lemma {:induction false} NumberedReplyReturns(host: string, command: HostCommand, key: Option<string>, id: string,
                                                r: ResultMessage)
    requires (Consequential(command) ==> Present(key)) && r.commandId == id
    ensures var m := Run(EMPTY, [Attaches(host, 1)] + [Begins(host, command, key, id)] + [SendCompletes(0)]
                                + [FrameArrives(0, 2, Some(r))] + [Wakes(0)]);
            |m.waiters| == 1 && m.waiters[0].phase == Ended(Returned(r))
  {
    var e1, e2 := [Attaches(host, 1)], [Attaches(host, 1)] + [Begins(host, command, key, id)];
    var e3 := e2 + [SendCompletes(0)];
    var e4 := e3 + [FrameArrives(0, 2, Some(r))];
    assert [] + e1 == e1;
    RunOne(EMPTY, [], e1[0]);
    RunOne(EMPTY, e1, Begins(host, command, key, id));
    RunOne(EMPTY, e2, SendCompletes(0));
    RunOne(EMPTY, e3, FrameArrives(0, 2, Some(r)));
    RunOne(EMPTY, e4, Wakes(0));
  }

  /** What a caller that leaves `dispatch` is told, by the way it leaves: a failed send, a
      timeout and a cancellation each raise their own error. It is told once, its command is
      forgotten, and no other caller is disturbed. */
  lemma LeavesWith(m: Manager, f: nat, e: Event, error: ErrorCode)
    requires Inv(m) && f < |m.waiters|
    requires || (e == SendFails(f) && m.waiters[f].phase.Sending? && error == BackendUnavailable)
             || (e == TimesOut(f) && m.waiters[f].phase.Waiting? && error == TimedOut)
             || (e == WaitCancelled(f) && m.waiters[f].phase.Waiting? && error == ErrorCode.Cancelled)
    ensures var n := Step(m, e); var w := m.waiters[f];
            && n.waiters[f].phase == Ended(Raised(error))
            && !n.waiters[f].future.Unresolved?
            && w.command !in n.conns[w.conn].pending
            && |n.waiters| == |m.waiters|
            && (forall g :: 0 <= g < |m.waiters| && g != f ==> n.waiters[g] == m.waiters[g])
            && n.hosts == m.hosts
  {
    assert WaiterOk(m, f);
  }

  /** The events that end a dispatch end it only from the phase they belong to. */
  lemma LeavesOnlyFrom(m: Manager, f: nat, e: Event)
    requires Inv(m) && f < |m.waiters|
    requires || (e == SendFails(f) && !m.waiters[f].phase.Sending?)
             || ((e == TimesOut(f) || e == WaitCancelled(f) || e == Wakes(f)) && !m.waiters[f].phase.Waiting?)
             || (e == Wakes(f) && m.waiters[f].future.Unresolved?)
    ensures Step(m, e) == m
  {
  }

  /** The phases a caller may pass through before it ends. */
  lemma SendingEnds(m: Manager, f: nat)
    requires Inv(m) && f < |m.waiters| && m.waiters[f].phase.Sending?
    ensures Step(m, SendCompletes(f)).waiters[f] == m.waiters[f].(phase := Waiting)
    ensures Step(m, SendCancelled(f)).waiters[f] == m.waiters[f].(phase := Dropped)
    ensures Step(m, SendCompletes(f)).conns == m.conns && Step(m, SendCancelled(f)).conns == m.conns
  {
    assert WaiterOk(m, f);
  }

  /** Callers waiting on a connection that a reconnection displaces wake with CANCELLED, and
      those on one that is detached with BACKEND_UNAVAILABLE, whenever they come to wake. */
  lemma {:induction false} LostConnectionRaises(m: Manager, f: nat, host: string, seqNo: int, later: seq<Event>)
    requires Inv(m) && f < |m.waiters| && m.waiters[f].future.Unresolved?
    requires m.waiters[f].conn < |m.conns| && m.conns[m.waiters[f].conn].host == host
    ensures WakesWith(Run(Step(m, Attaches(host, seqNo)), later), f, ErrorCode.Cancelled)
    ensures WakesWith(Run(Step(m, Detaches(host)), later), f, BackendUnavailable)
  {
    assert WaiterOk(m, f);
    var c := m.waiters[f].conn;
    assert m.Current(c) && f in m.conns[c].pending.Values by {
      assert m.conns[c].pending[m.waiters[f].command] == f;
    }
    StepInv(m, Attaches(host, seqNo));
    StepInv(m, Detaches(host));
    ResolvedOnce(Step(m, Attaches(host, seqNo)), later, f);
    ResolvedOnce(Step(m, Detaches(host)), later, f);
    RunInv(Step(m, Attaches(host, seqNo)), later);
    RunInv(Step(m, Detaches(host)), later);
    BrokenWakes(Run(Step(m, Attaches(host, seqNo)), later), f);
    BrokenWakes(Run(Step(m, Detaches(host)), later), f);
  }

  /** If caller `f` is waiting, its wake-up raises `error`. */
  ghost predicate WakesWith(m: Manager, f: nat, error: ErrorCode) {
    f < |m.waiters| && (m.waiters[f].phase.Waiting? ==> Step(m, Wakes(f)).waiters[f].phase == Ended(Raised(error)))
  }

  lemma BrokenWakes(m: Manager, f: nat)
    requires Inv(m) && f < |m.waiters| && m.waiters[f].future.Broken?
    ensures WakesWith(m, f, m.waiters[f].future.error)
  {
    assert WaiterOk(m, f);
  }

  // ----- Sequence numbers -----

  lemma StepKeepsInbound(m: Manager, e: Event, c: nat)
    requires Inv(m) && c < |m.conns|
    ensures c < |Step(m, e).conns| && m.conns[c].inboundSeq <= Step(m, e).conns[c].inboundSeq
  {
    match e
    case Attaches(host, _) =>
      if host in m.hosts {
        assert m.hosts[host] < |m.conns|;
      }
    case _ =>
  }

  lemma {:induction false} RunKeepsInbound(m: Manager, events: seq<Event>, c: nat)
    requires Inv(m) && c < |m.conns|
    ensures c < |Run(m, events).conns| && m.conns[c].inboundSeq <= Run(m, events).conns[c].inboundSeq
  {
    if events != [] {
      var past := events[..|events| - 1];
      RunKeepsInbound(m, past, c);
      RunInv(m, past);
      StepKeepsInbound(Run(m, past), events[|events| - 1], c);
    }
  }

  /** A frame whose number was seen once changes nothing at any later moment, whatever it
      carries and however the connection has fared in between. */
  lemma {:induction false} ReplayIsRefused(m: Manager, c: nat, seqNo: int, first: Option<ResultMessage>,
                                           between: seq<Event>, again: Option<ResultMessage>)
    requires Inv(m) && c < |m.conns|
    ensures var n := Run(Step(m, FrameArrives(c, seqNo, first)), between);
            Step(n, FrameArrives(c, seqNo, again)) == n
  {
    StepInv(m, FrameArrives(c, seqNo, first));
    RunKeepsInbound(Step(m, FrameArrives(c, seqNo, first)), between, c);
  }

  /** How many commands were sent on connection `c`. */
  ghost function SentOn(ws: seq<Waiter>, c: nat): nat {
    if ws == [] then 0 else SentOn(ws[..|ws| - 1], c) + if ws[|ws| - 1].conn == c then 1 else 0
  }

  lemma {:induction false} SentAlike(ws: seq<Waiter>, vs: seq<Waiter>, c: nat)
    requires |ws| == |vs| && forall f :: 0 <= f < |ws| ==> ws[f].conn == vs[f].conn
    ensures SentOn(ws, c) == SentOn(vs, c)
  {
    if ws != [] {
      SentAlike(ws[..|ws| - 1], vs[..|vs| - 1], c);
    }
  }

  lemma {:induction false} SentBelow(ws: seq<Waiter>, c: nat)
    requires forall f :: 0 <= f < |ws| ==> ws[f].conn < c
    ensures SentOn(ws, c) == 0
  {
    if ws != [] {
      SentBelow(ws[..|ws| - 1], c);
    }
  }

  /** Only a dispatch counts a connection up, and only an attachment adds one. */
  lemma StepKeepsCounts(m: Manager, e: Event)
    requires Inv(m) && (!e.Begins? || Step(m, e) == m)
    ensures var n := Step(m, e);
            && |n.waiters| == |m.waiters| && |m.conns| <= |n.conns|
            && (forall f :: 0 <= f < |m.waiters| ==> n.waiters[f].conn == m.waiters[f].conn)
            && (forall k :: 0 <= k < |m.conns| ==> n.conns[k].outboundSeq == m.conns[k].outboundSeq)
            && (forall k :: |m.conns| <= k < |n.conns| ==> n.conns[k].outboundSeq == 0)
  {
    match e
    case Attaches(host, _) =>
      if host in m.hosts {
        assert m.hosts[host] < |m.conns|;
      }
    case _ =>
  }

  lemma StepCounts(m: Manager, e: Event, c: nat)
    requires Inv(m) && forall k: nat :: k < |m.conns| ==> m.conns[k].outboundSeq == SentOn(m.waiters, k)
    requires c < |Step(m, e).conns|
    ensures Step(m, e).conns[c].outboundSeq == SentOn(Step(m, e).waiters, c)
  {
    var n := Step(m, e);
    if e.Begins? && n != m {
      BeginIs(m, e.host, e.command, e.key, e.id);
    } else {
      StepKeepsCounts(m, e);
      SentAlike(m.waiters, n.waiters, c);
      if c >= |m.conns| {
        forall f | 0 <= f < |m.waiters| ensures m.waiters[f].conn < c {
          assert WaiterOk(m, f);
        }
        SentBelow(m.waiters, c);
      }
    }
  }

  /** Outbound commands are numbered one by one: over every run each connection's counter is
      the number of commands that were sent on it. */
  lemma {:induction false} NumberedOneByOne(events: seq<Event>, c: nat)
    requires c < |Run(EMPTY, events).conns|
    ensures Run(EMPTY, events).conns[c].outboundSeq == SentOn(Run(EMPTY, events).waiters, c)
  {
    if events != [] {
      var past := events[..|events| - 1];
      RunInv(EMPTY, past);
      forall k: nat | k < |Run(EMPTY, past).conns|
        ensures Run(EMPTY, past).conns[k].outboundSeq == SentOn(Run(EMPTY, past).waiters, k)
      {
        NumberedOneByOne(past, k);
      }
      StepCounts(Run(EMPTY, past), events[|events| - 1], c);
    }
  }

  // ----- Where the code misses its own aim -----

  /** A closing socket cleans up by host identifier. The cleanup leaves every other
      connection alone exactly when the closing one is current, or its host is not
      connected at all; after a reconnection it drops the new connection. */
  lemma CleanupSparesOthersIff(m: Manager, closing: nat)
    requires Inv(m) && closing < |m.conns|
    ensures (forall k :: 0 <= k < |m.conns| && k != closing && m.Current(k) ==>
               Step(m, Detaches(m.conns[closing].host)).Current(k))
            <==> (m.conns[closing].host in m.hosts ==> m.Current(closing))
  {
    var host := m.conns[closing].host;
    var n := Step(m, Detaches(host));
    if host in m.hosts && !m.Current(closing) {
      var k := m.hosts[host];
      assert m.Current(k) && k != closing && !n.Current(k);
    }
  }

  ghost predicate ResultsUnnumbered(events: seq<Event>) {
    forall i :: 0 <= i < |events| ==>
      && (events[i].FrameArrives? && events[i].message.Some? ==> events[i].seqNo == 0)
      && (events[i].Attaches? ==> events[i].seqNo >= 0)
  }

  ghost predicate NothingAnswered(m: Manager) {
    && (forall c :: 0 <= c < |m.conns| ==> m.conns[c].inboundSeq >= 0)
    && (forall f :: 0 <= f < |m.waiters| ==> !m.waiters[f].future.Answered?)
  }

  lemma UnnumberedStep(m: Manager, e: Event)
    requires Inv(m) && NothingAnswered(m) && ResultsUnnumbered([e])
    ensures NothingAnswered(Step(m, e))
  {
    assert [e][0] == e;
    match e
    case Attaches(host, _) =>
      if host in m.hosts {
        assert m.hosts[host] < |m.conns|;
      }
    case FrameArrives(c, seqNo, r) =>
      if c < |m.conns| && r.Some? {
        assert Step(m, e) == m;
      }
    case _ =>
  }

  /** The host leaves the sequence number of every result at its default, zero, while its
      registration already carries a number of at least one. No caller is then answered
      in any run, however the frames interleave. */
  lemma {:induction false} UnnumberedResultsNeverArrive(events: seq<Event>)
    requires ResultsUnnumbered(events)
    ensures NothingAnswered(Run(EMPTY, events))
    ensures forall f :: 0 <= f < |Run(EMPTY, events).waiters| ==>
              !(Run(EMPTY, events).waiters[f].phase.Ended? && Run(EMPTY, events).waiters[f].phase.outcome.Returned?)
  {
    RunInv(EMPTY, events);
    if events != [] {
      var past := events[..|events| - 1];
      UnnumberedResultsNeverArrive(past);
      RunInv(EMPTY, past);
      UnnumberedStep(Run(EMPTY, past), events[|events| - 1]);
    }
    forall f | 0 <= f < |Run(EMPTY, events).waiters|
      ensures !(Run(EMPTY, events).waiters[f].phase.Ended? && Run(EMPTY, events).waiters[f].phase.outcome.Returned?)
    {
      assert WaiterOk(Run(EMPTY, events), f);
    }
  }
}

/** What resolving an intervention leaves in the attempt. */
module ResolutionResults {
  import opened Wrappers
  import opened Execution
  import opened Platform
  import opened AttemptService
  import opened AttemptResults

  /** The number of commits that took effect. */
  ghost function Commits(t: Trace): nat {
    match t
    case Nothing => 0
    case Then(past, e) => Commits(past) + if e.Committed? then 1 else 0
  }

  // ----- The answers -----

  /** From `w` to `x` nothing was committed, or rows with these answers were. */
  ghost predicate Wrote(w: World, x: World, answers: seq<AnswerDraft>) {
    && Commits(w.trace) <= Commits(x.trace)
    && if Commits(x.trace) == Commits(w.trace) then x.durable == w.durable else x.durable.answers == answers
  }

  lemma WroteThenWrote(w: World, m: World, x: World, answers: seq<AnswerDraft>)
    requires Wrote(w, m, answers) && Wrote(m, x, answers)
    ensures Wrote(w, x, answers)
  {
  }

  lemma EmitWrites(w: World, e: Effect, answers: seq<AnswerDraft>)
    requires !e.Committed?
    ensures Wrote(w, w.Emit(e), answers)
  {
  }

  lemma CommitWrites(w: World, a: Attempt, queue: seq<TaskState>)
    ensures Wrote(w, w.Commit(a, queue).world, a.answers)
    ensures w.Commit(a, queue).Done? ==> w.Commit(a, queue).world.durable == a
  {
  }

  lemma BindWrites(w: World, a: Attempt, hosts: Hosts, i: nat)
    requires i < |a.interventions|
    ensures var io := BindSession(w, a, hosts, Some(i));
            Wrote(w, io.world, a.answers) && (io.Done? ==> io.value.0.answers == a.answers)
  {
    var (host, session) := Target(a, Some(i));
    if IsConnected(hosts, host) && !(Present(session) && session.value in hosts.value[host.value]) {
      var created := w.CreateSession(if Present(session) then session.value else a.id);
      assert Wrote(w, created.world, a.answers);
      if created.Done? && Present(created.value) {
        CommitWrites(created.world, Adopt(a, Some(i), host.value, created.value.value), w.tasks);
      }
    }
  }

  lemma TakeBackWrites(w: World, a: Attempt)
    ensures var io := TakeBack(w, a);
            Wrote(w, io.world, a.answers) && (io.Done? ==> io.value.0.answers == a.answers)
  {
    var asked := w.AskForControl();
    var requested := w.Advance().Emit(ReclaimRequested);
    EmitWrites(w.Advance(), ReclaimRequested, a.answers);
    EmitWrites(requested, ReclaimAnswered(w.Next().Reply? && w.Next().ok), a.answers);
    if asked.Done? && asked.value {
      assert Wrote(asked.world, asked.world.ReadOwner().world, a.answers);
    }
  }

  lemma {:induction false} ReclaimWrites(w: World, a: Attempt, i: nat, hosts: Hosts)
    requires i < |a.interventions|
    ensures var io := Reclaim(w, a, i, hosts);
            Wrote(w, io.world, a.answers) && (io.Done? ==> io.value.0.answers == a.answers)
  {
    if a.interventions[i].handoff {
      var (host, session) := Target(a, Some(i));
      if IsConnected(hosts, host) {
        var b := a.(host := host, session := session);
        BindWrites(w, b, hosts, i);
        var bound := BindSession(w, b, hosts, Some(i));
        if bound.Done? && bound.value.1 {
          TakeBackWrites(bound.world, bound.value.0);
          WroteThenWrote(w, bound.world, TakeBack(bound.world, bound.value.0).world, a.answers);
        }
      }
    }
  }

  lemma {:induction false} ResumeWrites(w: World, a: Attempt, i: nat, r: Resolution, answer: Option<string>,
                                        hosts: Hosts)
    requires i < |a.interventions|
    ensures Wrote(w, Resume(w, a, i, r, answer, hosts).world, TakeAnswer(a, i, r, answer).answers)
  {
    var b := TakeAnswer(a, i, r, answer);
    ReclaimWrites(w, b, i, hosts);
    var reclaimed := Reclaim(w, b, i, hosts);
    if reclaimed.Done? {
      var (d, ours) := reclaimed.value;
      var x := reclaimed.world;
      if ours {
        CommitWrites(x, d.ResolveIntervention(i, r).(state := WorkflowState.Pending).RecordEvent(Resumed),
                     Enqueue(x.tasks));
      } else {
        CommitWrites(x, d, x.tasks);
      }
      WroteThenWrote(w, x, Settle(x, d, i, r, ours).world, b.answers);
    }
  }

  /** Every draft under `key` now holds the user's words, and no other draft has changed. */
  ghost predicate Given(before: seq<AnswerDraft>, after: seq<AnswerDraft>, key: string, text: string) {
    && |after| == |before|
    && forall k :: 0 <= k < |before| ==>
         if before[k].key == key then
           after[k].key == key && after[k].text == Some(text) && after[k].status == UserProvided
         else after[k] == before[k]
  }

  /** The intervention asks for the answer to a question, and this resolution gives it. */
  predicate Answers(w: World, i: nat, r: Resolution, answer: Option<string>) {
    && i < |w.durable.interventions| && w.durable.interventions[i].IsOpen()
    && w.durable.interventions[i].questionKey.Some?
    && r == Answer && answer.Some? && answer.value != ""
  }

  /** A user's answer is kept: from the first commit of its resolution on, even if control of
      the browser does not come back or the process dies later. No other resolution, and no
      empty answer, touches any draft. */
  lemma {:induction false} AnswerIsKept(w: World, i: nat, r: Resolution, answer: Option<string>, hosts: Hosts,
                                        now: int)
    ensures var x := AttemptService.Resolve(w, i, r, answer, hosts, now).world;
            && Commits(w.trace) <= Commits(x.trace)
            && (Commits(x.trace) == Commits(w.trace) ==> x.durable == w.durable)
            && (Commits(x.trace) > Commits(w.trace) ==>
                  if Answers(w, i, r, answer) then
                    Given(w.durable.answers, x.durable.answers, w.durable.interventions[i].questionKey.value,
                          answer.value)
                  else x.durable.answers == w.durable.answers)
  {
    var a := w.durable;
    if i < |a.interventions| {
      if r.KeepControl? {
        CommitWrites(w, a.RecordEvent(ControlKept).(state := WaitingForHuman), w.tasks);
      } else if a.interventions[i].IsOpen() {
        if Resumes(r) {
          ResumeWrites(w, a, i, r, answer, hosts);
        } else {
          CommitWrites(w, a.ResolveIntervention(i, r).Cancelled(now), w.tasks);
        }
      }
    }
  }

  // ----- The pauses -----

  /** Pause `i` is the same question to the same human, and no other pause has changed. */
  ghost predicate OnlyPause(a: Attempt, b: Attempt, i: nat) {
    && |b.interventions| == |a.interventions|
    && (forall j :: 0 <= j < |a.interventions| && j != i ==> b.interventions[j] == a.interventions[j])
    && (i < |a.interventions| ==>
          && b.interventions[i].reason == a.interventions[i].reason
          && b.interventions[i].handoff == a.interventions[i].handoff
          && b.interventions[i].questionKey == a.interventions[i].questionKey)
    && b.id == a.id && b.mode == a.mode && b.evidence == a.evidence
    && b.submissionAttemptedAt == a.submissionAttemptedAt && b.checkpoints == a.checkpoints
    && b.questions == a.questions && b.uploads == a.uploads && b.failures == a.failures
  }

  /** As `OnlyPause`, with pause `i` still as open or closed as it was. */
  ghost predicate Untouched(a: Attempt, b: Attempt, i: nat) {
    && OnlyPause(a, b, i) && b.state == a.state && b.completedAt == a.completedAt
    && (i < |a.interventions| ==> b.interventions[i].resolution == a.interventions[i].resolution)
  }

  lemma AdoptLeaves(before: Attempt, a: Attempt, i: nat, host: string, session: string)
    requires i < |a.interventions| && Untouched(before, a, i)
    ensures Untouched(before, Adopt(a, Some(i), host, session), i)
  {
  }

  lemma CommitLeaves(before: Attempt, w: World, a: Attempt, queue: seq<TaskState>, i: nat)
    requires Untouched(before, w.durable, i) && Untouched(before, a, i)
    ensures Untouched(before, w.Commit(a, queue).world.durable, i)
  {
  }

  lemma BindLeaves(before: Attempt, w: World, a: Attempt, hosts: Hosts, i: nat)
    requires i < |a.interventions| && Untouched(before, w.durable, i) && Untouched(before, a, i)
    ensures var io := BindSession(w, a, hosts, Some(i));
            Untouched(before, io.world.durable, i) && (io.Done? ==> Untouched(before, io.value.0, i))
  {
    var (host, session) := Target(a, Some(i));
    if IsConnected(hosts, host) && !(Present(session) && session.value in hosts.value[host.value]) {
      var created := w.CreateSession(if Present(session) then session.value else a.id);
      assert created.world.durable == w.durable;
      if created.Done? && Present(created.value) {
        var b := Adopt(a, Some(i), host.value, created.value.value);
        AdoptLeaves(before, a, i, host.value, created.value.value);
        CommitLeaves(before, created.world, b, w.tasks, i);
      }
    }
  }

  lemma TakeBackLeaves(before: Attempt, w: World, a: Attempt, i: nat)
    requires Untouched(before, w.durable, i) && Untouched(before, a, i)
    ensures var io := TakeBack(w, a);
            Untouched(before, io.world.durable, i) && (io.Done? ==> Untouched(before, io.value.0, i))
  {
    assert Untouched(before, a.RecordEvent(ReclaimFailed), i);
  }

  lemma {:induction false} ReclaimLeaves(before: Attempt, w: World, a: Attempt, i: nat, hosts: Hosts)
    requires i < |a.interventions| && Untouched(before, w.durable, i) && Untouched(before, a, i)
    ensures var io := Reclaim(w, a, i, hosts);
            Untouched(before, io.world.durable, i) && (io.Done? ==> Untouched(before, io.value.0, i))
  {
    assert Untouched(before, a.RecordEvent(ReclaimFailed), i);
    if a.interventions[i].handoff {
      var (host, session) := Target(a, Some(i));
      if IsConnected(hosts, host) {
        var b := a.(host := host, session := session);
        assert Untouched(before, b, i);
        BindLeaves(before, w, b, hosts, i);
        var bound := BindSession(w, b, hosts, Some(i));
        if bound.Done? {
          TakeBackLeaves(before, bound.world, bound.value.0, i);
        }
      }
    }
  }

  /** What a resolution may make of the row: leave the pause, close it and queue, or end it. */
  ghost predicate ResolvedTo(a: Attempt, b: Attempt, i: nat, r: Resolution, now: int) {
    && i < |a.interventions| && OnlyPause(a, b, i)
    && if b.interventions[i].resolution == a.interventions[i].resolution then
         b.completedAt == a.completedAt && (b.state == a.state || (r.KeepControl? && b.state.WaitingForHuman?))
       else
         && a.interventions[i].IsOpen() && b.interventions[i].resolution == Some(r) && !r.KeepControl?
         && if r.SkipApplication? || r.Cancel? then
              b.state == WorkflowState.Cancelled && b.completedAt == Some(now)
            else b.state == WorkflowState.Pending && b.completedAt == a.completedAt
  }

  lemma SettleRecords(w: World, before: Attempt, a: Attempt, i: nat, r: Resolution, ours: bool, now: int)
    requires i < |before.interventions| && before.interventions[i].IsOpen() && Resumes(r)
    requires Untouched(before, w.durable, i) && Untouched(before, a, i)
    ensures ResolvedTo(before, Settle(w, a, i, r, ours).world.durable, i, r, now)
  {
    var d := a.ResolveIntervention(i, r).(state := WorkflowState.Pending).RecordEvent(Resumed);
    assert ResolvedTo(before, w.durable, i, r, now) && ResolvedTo(before, a, i, r, now);
    assert ResolvedTo(before, d, i, r, now);
  }

  /** Resolving writes the resolution into its own pause and no other, and moves the attempt
      only to the state that resolution stands for. */
  lemma {:induction false} ResolutionIsRecorded(w: World, i: nat, r: Resolution, answer: Option<string>, hosts: Hosts,
                                                now: int)
    requires i < |w.durable.interventions|
    ensures ResolvedTo(w.durable, AttemptService.Resolve(w, i, r, answer, hosts, now).world.durable, i, r, now)
  {
    var a := w.durable;
    assert ResolvedTo(a, a, i, r, now);
    if r.KeepControl? {
      assert ResolvedTo(a, a.RecordEvent(ControlKept).(state := WaitingForHuman), i, r, now);
    } else if a.interventions[i].IsOpen() {
      if Resumes(r) {
        var b := TakeAnswer(a, i, r, answer);
        ReclaimLeaves(a, w, b, i, hosts);
        var reclaimed := Reclaim(w, b, i, hosts);
        if reclaimed.Done? {
          SettleRecords(reclaimed.world, a, reclaimed.value.0, i, r, reclaimed.value.1, now);
        } else {
          assert ResolvedTo(a, reclaimed.world.durable, i, r, now);
        }
      } else {
        assert ResolvedTo(a, a.ResolveIntervention(i, r).Cancelled(now), i, r, now);
      }
    }
  }

  /** What the caller is told, exactly. */
  lemma ToldIff(w: World, i: nat, r: Resolution, answer: Option<string>, hosts: Hosts, now: int)
    requires AttemptService.Resolve(w, i, r, answer, hosts, now).Done?
    ensures var io := AttemptService.Resolve(w, i, r, answer, hosts, now); var items := w.durable.interventions;
            && (io.value.NotFound? <==> i >= |items|)
            && (io.value.AlreadyClosed? <==> i < |items| && !items[i].IsOpen() && r != KeepControl)
            && (io.value.Kept? <==> i < |items| && r == KeepControl)
            && (io.value.CancelledByUser? <==> i < |items| && items[i].IsOpen() && r in {SkipApplication, Cancel})
            && (io.value.NotFound? || io.value.AlreadyClosed? ==> io.world == w)
            && (io.value.Kept? ==> io.world.durable.state.WaitingForHuman? && io.world.tasks == w.tasks)
            && (io.value.CancelledByUser? ==>
                  io.world.durable.state == WorkflowState.Cancelled && io.world.tasks == w.tasks)
  {
    if i < |w.durable.interventions| && w.durable.interventions[i].IsOpen() && Resumes(r) {
      HandoffClosesOnlyAfterReclaim(w, i, r, answer, hosts, now);
    }
  }

  /** A pause inside the application closes as soon as its one commit takes effect. */
  lemma PlainPauseClosesIff(w: World, i: nat, r: Resolution, answer: Option<string>, hosts: Hosts, now: int)
    requires i < |w.durable.interventions| && w.durable.interventions[i].IsOpen() && Resumes(r)
    requires !w.durable.interventions[i].handoff
    ensures var x := AttemptService.Resolve(w, i, r, answer, hosts, now).world;
            && i < |x.durable.interventions|
            && (!x.durable.interventions[i].IsOpen() <==> w.script != [] && !w.script[0].Crash?)
            && (!x.durable.interventions[i].IsOpen() ==> x.tasks == Enqueue(w.tasks))
            && (x.durable.interventions[i].IsOpen() ==> x.tasks == w.tasks && x.durable == w.durable)
  {
  }
}

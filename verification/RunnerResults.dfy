/** What one run of the form flow does to the page and leaves in the attempt. */
module RunnerResults {
  import opened Wrappers
  import opened Execution
  import opened Platform
  import opened Runner
  import opened RunnerProperties
  import opened Lists
  import Text

  /** `t` followed by `es`, in order. */
  ghost function Extended(t: Trace, es: seq<Effect>): Trace {
    if es == [] then t else Then(Extended(t, es[..|es| - 1]), es[|es| - 1])
  }

  lemma {:induction false} ExtendedCons(t: Trace, e: Effect, es: seq<Effect>)
    ensures Extended(t, [e] + es) == Extended(Then(t, e), es)
  {
    var all := [e] + es;
    if es == [] {
      assert all[..0] == [];
    } else {
      assert all[..|all| - 1] == [e] + es[..|es| - 1];
      ExtendedCons(t, e, es[..|es| - 1]);
    }
  }

  // ----- What is filled in -----

  /** A draft whose text may go into a form: answered by the user, or ready without review. */
  ghost predicate Usable(d: AnswerDraft, key: string) {
    d.key == key && d.status in {ReadyToSubmit, UserProvided} && d.text.Some? && d.text.value != ""
  }

  /** `text` is what the last usable draft for `key` says. */
  ghost predicate Says(answers: seq<AnswerDraft>, key: string, text: string) {
    exists k :: 0 <= k < |answers| && Usable(answers[k], key) && answers[k].text == Some(text)
                && forall j :: k < j < |answers| ==> !Usable(answers[j], key)
  }

  /** The question has a field and an answer to put there. */
  ghost predicate Fillable(answers: seq<AnswerDraft>, q: Question) {
    Present(q.locator) && exists k :: 0 <= k < |answers| && Usable(answers[k], q.key)
  }

  ghost predicate IsFillOf(e: Effect, answers: seq<AnswerDraft>, q: Question) {
    e.Filled? && Present(q.locator) && e.locator == q.locator.value && Says(answers, q.key, e.value)
  }

  /** Which questions are to be filled in. */
  ghost function Fillables(answers: seq<AnswerDraft>, qs: seq<Question>): (r: seq<bool>)
    ensures |r| == |qs| && forall k :: 0 <= k < |qs| ==> (r[k] <==> Fillable(answers, qs[k]))
  {
    seq(|qs|, k requires 0 <= k < |qs| => Fillable(answers, qs[k]))
  }

  /** The effects `es` fill the questions at `at`, one each. */
  ghost predicate Fills(es: seq<Effect>, at: seq<nat>, answers: seq<AnswerDraft>, qs: seq<Question>) {
    |at| == |es| && forall j :: 0 <= j < |at| ==> at[j] < |qs| && IsFillOf(es[j], answers, qs[at[j]])
  }

  /** Of the first `n` questions exactly those that are to be filled in were, in order. */
  ghost predicate FilledFirst(es: seq<Effect>, at: seq<nat>, n: nat, answers: seq<AnswerDraft>, qs: seq<Question>) {
    n <= |qs| && Positions(at, Fillables(answers, qs[..n])) && Fills(es, at, answers, qs)
  }

  lemma SaysStill(answers: seq<AnswerDraft>, key: string, text: string)
    requires answers != [] && !Usable(answers[|answers| - 1], key) && Says(answers[..|answers| - 1], key, text)
    ensures Says(answers, key, text)
  {
    var before := answers[..|answers| - 1];
    var k :| 0 <= k < |before| && Usable(before[k], key) && before[k].text == Some(text)
             && forall j :: k < j < |before| ==> !Usable(before[j], key);
    assert Usable(answers[k], key) && answers[k].text == Some(text);
    forall j | k < j < |answers| ensures !Usable(answers[j], key) {
      if j < |before| {
        assert before[j] == answers[j];
      }
    }
  }

  lemma {:induction false} ReadyAnswerSays(answers: seq<AnswerDraft>, key: string)
    ensures var r := ReadyAnswer(answers, key);
            && (r.None? ==> forall k :: 0 <= k < |answers| ==> !Usable(answers[k], key))
            && (r.Some? ==> r.value != "" && Says(answers, key, r.value))
  {
    if answers != [] {
      var n := |answers| - 1;
      if Usable(answers[n], key) {
        assert answers[n].text == ReadyAnswer(answers, key);
      } else {
        var r := ReadyAnswer(answers[..n], key);
        assert ReadyAnswer(answers, key) == r;
        ReadyAnswerSays(answers[..n], key);
        if r.Some? {
          SaysStill(answers, key, r.value);
        } else {
          assert forall k :: 0 <= k < n ==> answers[..n][k] == answers[k];
        }
      }
    }
  }

  lemma FillsShift(es: seq<Effect>, at: seq<nat>, answers: seq<AnswerDraft>, qs: seq<Question>)
    requires qs != [] && Fills(es, at, answers, qs[1..])
    ensures Fills(es, Shifted(at), answers, qs)
  {
    forall j | 0 <= j < |at| ensures Shifted(at)[j] < |qs| && IsFillOf(es[j], answers, qs[Shifted(at)[j]]) {
      assert qs[1..][at[j]] == qs[at[j] + 1];
    }
  }

  lemma FillsAlso(e: Effect, es: seq<Effect>, at: seq<nat>, answers: seq<AnswerDraft>, qs: seq<Question>)
    requires qs != [] && IsFillOf(e, answers, qs[0]) && Fills(es, at, answers, qs)
    ensures Fills([e] + es, [0] + at, answers, qs)
  {
    forall j | 0 <= j < |at| + 1 ensures ([0] + at)[j] < |qs| && IsFillOf(([e] + es)[j], answers, qs[([0] + at)[j]]) {
      if j > 0 {
        assert ([0] + at)[j] == at[j - 1] && ([e] + es)[j] == es[j - 1];
      }
    }
  }

  lemma FillablesCons(answers: seq<AnswerDraft>, qs: seq<Question>, n: nat)
    requires qs != [] && n < |qs|
    ensures Fillables(answers, qs[..n + 1]) == [Fillable(answers, qs[0])] + Fillables(answers, qs[1..][..n])
  {
    assert qs[..n + 1] == [qs[0]] + qs[1..][..n];
  }

  lemma FilledCons(e: Effect, es: seq<Effect>, at: seq<nat>, n: nat, answers: seq<AnswerDraft>, qs: seq<Question>)
    requires qs != [] && Fillable(answers, qs[0]) && IsFillOf(e, answers, qs[0])
    requires FilledFirst(es, at, n, answers, qs[1..])
    ensures FilledFirst([e] + es, [0] + Shifted(at), n + 1, answers, qs)
  {
    FillablesCons(answers, qs, n);
    PositionsCons(at, true, Fillables(answers, qs[1..][..n]));
    FillsShift(es, at, answers, qs);
    FillsAlso(e, es, Shifted(at), answers, qs);
  }

  lemma FilledSkip(es: seq<Effect>, at: seq<nat>, n: nat, answers: seq<AnswerDraft>, qs: seq<Question>)
    requires qs != [] && !Fillable(answers, qs[0]) && FilledFirst(es, at, n, answers, qs[1..])
    ensures FilledFirst(es, Shifted(at), n + 1, answers, qs)
  {
    FillablesCons(answers, qs, n);
    PositionsCons(at, false, Fillables(answers, qs[1..][..n]));
    FillsShift(es, at, answers, qs);
  }

  lemma FilledNone(answers: seq<AnswerDraft>, qs: seq<Question>)
    ensures FilledFirst([], [], 0, answers, qs)
  {
  }

  /** What the fill of one question is. */
  lemma FillIs(answers: seq<AnswerDraft>, q: Question)
    ensures var draft := ReadyAnswer(answers, q.key);
            && (Present(draft) && Present(q.locator) <==> Fillable(answers, q))
            && (Fillable(answers, q) ==> IsFillOf(Filled(q.locator.value, draft.value), answers, q))
  {
    ReadyAnswerSays(answers, q.key);
  }

  /** What filling does: the effects `es` on the page, which answer the first `n` questions,
      and if it came to its end all of them. */
  ghost predicate FillRuns(w: World, io: Io<()>, es: seq<Effect>, at: seq<nat>, n: nat, answers: seq<AnswerDraft>,
                           qs: seq<Question>) {
    && io.world.trace == Extended(w.trace, es)
    && FilledFirst(es, at, n, answers, qs)
    && (io.Done? ==> n == |qs| && |es| <= |w.script| && io.world.script == w.script[|es|..])
  }

  lemma RunsSkip(w: World, io: Io<()>, es: seq<Effect>, at: seq<nat>, n: nat, answers: seq<AnswerDraft>,
                 qs: seq<Question>)
    requires qs != [] && !Fillable(answers, qs[0]) && FillRuns(w, io, es, at, n, answers, qs[1..])
    ensures FillRuns(w, io, es, Shifted(at), n + 1, answers, qs)
  {
    FilledSkip(es, at, n, answers, qs);
  }

  lemma SkipIs(w: World, answers: seq<AnswerDraft>, qs: seq<Question>)
    requires qs != [] && !Fillable(answers, qs[0])
    ensures FillAll(w, answers, qs) == FillAll(w, answers, qs[1..])
  {
    FillIs(answers, qs[0]);
  }

  /** Filling puts into the field of every question that has both a field and an answer the
      text of its last usable draft, once and in the order of the questions, and touches
      nothing else. Broken off, it has done so for the first `n` of them. */
  lemma {:induction false} FillsExactly(w: World, answers: seq<AnswerDraft>, qs: seq<Question>)
    returns (es: seq<Effect>, at: seq<nat>, n: nat)
    ensures FillRuns(w, FillAll(w, answers, qs), es, at, n, answers, qs)
    decreases |qs|, 1
  {
    if qs == [] {
      es, at, n := [], [], 0;
      FilledNone(answers, qs);
    } else if Fillable(answers, qs[0]) {
      es, at, n := FillsOne(w, answers, qs);
    } else {
      es, at, n := FillsExactly(w, answers, qs[1..]);
      SkipIs(w, answers, qs);
      RunsSkip(w, FillAll(w, answers, qs[1..]), es, at, n, answers, qs);
      at, n := Shifted(at), n + 1;
    }
  }

  lemma {:induction false} FillsOne(w: World, answers: seq<AnswerDraft>, qs: seq<Question>)
    returns (es: seq<Effect>, at: seq<nat>, n: nat)
    requires qs != [] && Fillable(answers, qs[0])
    ensures FillRuns(w, FillAll(w, answers, qs), es, at, n, answers, qs)
    decreases |qs|, 0
  {
    FillIs(answers, qs[0]);
    var e := Filled(qs[0].locator.value, ReadyAnswer(answers, qs[0].key).value);
    var io := w.Act(e);
    es, at, n := [], [], 0;
    if w.Next().Crash? {
      FilledNone(answers, qs);
    } else {
      FilledNone(answers, qs[1..]);
      if io.Done? {
        es, at, n := FillsExactly(io.world, answers, qs[1..]);
      }
      ExtendedCons(w.trace, e, es);
      FilledCons(e, es, at, n, answers, qs);
      es, at, n := [e] + es, [0] + Shifted(at), n + 1;
    }
  }

  // ----- What is attached -----

  /** Which elements are file inputs. */
  ghost function FileFlags(elements: seq<Element>): (r: seq<bool>)
    ensures |r| == |elements| && forall k :: 0 <= k < |r| ==> r[k] == elements[k].isFileInput
  {
    seq(|elements|, k requires 0 <= k < |elements| => elements[k].isFileInput)
  }

  /** `r` are the elements at `at`, in that order. */
  ghost predicate TakenAt(r: seq<Element>, at: seq<nat>, elements: seq<Element>) {
    |at| == |r| && forall j :: 0 <= j < |at| ==> at[j] < |elements| && elements[at[j]] == r[j]
  }

  lemma TakenShift(r: seq<Element>, at: seq<nat>, elements: seq<Element>)
    requires elements != [] && TakenAt(r, at, elements[1..])
    ensures TakenAt(r, Shifted(at), elements)
    ensures TakenAt([elements[0]] + r, [0] + Shifted(at), elements)
  {
    forall j | 0 <= j < |at| ensures Shifted(at)[j] < |elements| && elements[Shifted(at)[j]] == r[j] {
      assert elements[1..][at[j]] == elements[at[j] + 1];
    }
  }

  /** The file inputs of a page, all of them and in order. */
  lemma {:induction false} FileInputsAre(elements: seq<Element>) returns (at: seq<nat>)
    ensures TakenAt(FileInputs(elements), at, elements) && Positions(at, FileFlags(elements))
  {
    at := [];
    if elements != [] {
      var rest := FileInputsAre(elements[1..]);
      var flag := elements[0].isFileInput;
      TakenShift(FileInputs(elements[1..]), rest, elements);
      assert FileFlags(elements) == [flag] + FileFlags(elements[1..]);
      PositionsCons(rest, flag, FileFlags(elements[1..]));
      at := if flag then [0] + Shifted(rest) else Shifted(rest);
      assert FileInputs(elements) ==
             if flag then [elements[0]] + FileInputs(elements[1..]) else FileInputs(elements[1..]);
    }
  }

  function Uploadings(inputs: seq<Element>, path: string): (es: seq<Effect>)
    ensures |es| == |inputs|
  {
    seq(|inputs|, i requires 0 <= i < |inputs| => Uploaded(inputs[i].locator, path))
  }

  /** What is recorded of them: the browser's answer to each. */
  function Answered(inputs: seq<Element>, path: string, script: seq<Reply>): seq<Upload>
    requires |inputs| <= |script| && forall i :: 0 <= i < |inputs| ==> script[i].Reply?
  {
    seq(|inputs|, i requires 0 <= i < |inputs| => Upload(inputs[i].locator, path, script[i].ok))
  }

  /** Uploading sends the document to every input once and in order, and records the answer
      the browser gave to each. Broken off, it has sent it to a first part of them. */
  lemma {:induction false} UploadsExactly(w: World, a: Attempt, inputs: seq<Element>, path: string) returns (n: nat)
    ensures n <= |inputs|
    ensures var io := UploadAll(w, a, inputs, path);
            && io.world.trace == Extended(w.trace, Uploadings(inputs[..n], path))
            && (io.Done? ==>
                  && n == |inputs| <= |w.script| && io.world.script == w.script[n..]
                  && (forall i :: 0 <= i < n ==> w.script[i].Reply?)
                  && io.value == a.(uploads := a.uploads + Answered(inputs, path, w.script)))
    decreases |inputs|
  {
    n := 0;
    if inputs != [] {
      var e := Uploaded(inputs[0].locator, path);
      var io := w.Act(e);
      if io.Done? {
        var u := Upload(inputs[0].locator, path, io.value);
        var b := a.(uploads := a.uploads + [u]);
        var m := UploadsExactly(io.world, b, inputs[1..], path);
        n := m + 1;
        ExtendedCons(w.trace, e, Uploadings(inputs[1..][..m], path));
        assert Uploadings(inputs[..n], path) == [e] + Uploadings(inputs[1..][..m], path);
        if UploadAll(io.world, b, inputs[1..], path).Done? {
          AnsweredCons(inputs, path, w.script, a.uploads);
        }
      } else if io.world.trace != w.trace {
        n := 1;
        ExtendedCons(w.trace, e, []);
        assert Uploadings(inputs[..1], path) == [e] + [];
      }
    }
  }

  lemma AnsweredCons(inputs: seq<Element>, path: string, script: seq<Reply>, before: seq<Upload>)
    requires inputs != [] && |inputs| <= |script| && script[0].Reply?
    requires forall i :: 0 <= i < |inputs[1..]| ==> script[1..][i].Reply?
    ensures forall i :: 0 <= i < |inputs| ==> script[i].Reply?
    ensures before + [Upload(inputs[0].locator, path, script[0].ok)] + Answered(inputs[1..], path, script[1..])
         == before + Answered(inputs, path, script)
  {
    forall i | 0 <= i < |inputs| ensures script[i].Reply? {
      if i > 0 {
        assert script[1..][i - 1].Reply?;
      }
    }
    assert Answered(inputs, path, script) ==
           [Upload(inputs[0].locator, path, script[0].ok)] + Answered(inputs[1..], path, script[1..]);
  }

  // ----- What is asked and answered -----

  /** The policy drafts an answer under the key of the question it was asked. */
  ghost predicate DraftsByKey(c: DriverContext) {
    forall q :: c.decide(q).draft.key == q.key
  }

  ghost predicate HasDraft(answers: seq<AnswerDraft>, key: string) {
    exists k :: 0 <= k < |answers| && answers[k].key == key
  }

  ghost predicate Asks(qs: seq<Question>, key: string) {
    exists k :: 0 <= k < |qs| && qs[k].key == key
  }

  /** The first question among `qs` with this key is answered by `d`. */
  ghost predicate DraftedFor(d: AnswerDraft, qs: seq<Question>, c: DriverContext) {
    exists k :: 0 <= k < |qs| && d == c.decide(qs[k]).draft && forall l :: 0 <= l < k ==> qs[l].key != qs[k].key
  }

  lemma DraftForIs(answers: seq<AnswerDraft>, key: string)
    ensures DraftFor(answers, key).Some? <==> HasDraft(answers, key)
  {
    var r := DraftFor(answers, key);
    if r.Some? {
      var k :| 0 <= k < |answers| && answers[k] == r.value;
      assert answers[k].key == key;
    }
  }

  lemma HasDraftAppend(answers: seq<AnswerDraft>, d: AnswerDraft)
    ensures forall key :: HasDraft(answers + [d], key) <==> HasDraft(answers, key) || key == d.key
  {
    var all := answers + [d];
    forall key ensures HasDraft(all, key) <==> HasDraft(answers, key) || key == d.key {
      assert all[|answers|] == d;
      if HasDraft(answers, key) {
        var k :| 0 <= k < |answers| && answers[k].key == key;
        assert all[k].key == key;
      }
      if HasDraft(all, key) {
        var k :| 0 <= k < |all| && all[k].key == key;
        assert k < |answers| ==> answers[k].key == key;
      }
    }
  }

  lemma AsksCons(q: Question, qs: seq<Question>)
    ensures forall key :: Asks([q] + qs, key) <==> q.key == key || Asks(qs, key)
  {
    var all := [q] + qs;
    forall key ensures Asks(all, key) <==> q.key == key || Asks(qs, key) {
      assert all[0] == q;
      if Asks(qs, key) {
        var k :| 0 <= k < |qs| && qs[k].key == key;
        assert all[k + 1].key == key;
      }
      if Asks(all, key) {
        var k :| 0 <= k < |all| && all[k].key == key;
        assert k > 0 ==> qs[k - 1].key == key;
      }
    }
  }

  /** The questions on record after those in `asked`: the old ones, and each new one once. */
  ghost predicate Remembers(before: seq<string>, after: seq<string>, asked: seq<Question>) {
    && before <= after
    && (forall key :: key in after <==> key in before || Asks(asked, key))
    && (forall i, j :: 0 <= i < j < |after| && |before| <= j ==> after[i] != after[j])
  }

  /** The drafts on record after those in `asked`: the old ones, untouched, and for every new
      question the one the policy drafted for its first occurrence. */
  ghost predicate Drafts(before: seq<AnswerDraft>, after: seq<AnswerDraft>, asked: seq<Question>, c: DriverContext) {
    && before <= after
    && (forall key :: HasDraft(after, key) <==> HasDraft(before, key) || Asks(asked, key))
    && (forall j :: |before| <= j < |after| ==> DraftedFor(after[j], asked, c) && !HasDraft(before, after[j].key))
    && (forall i, j :: 0 <= i < j < |after| && |before| <= j ==> after[i].key != after[j].key)
  }

  lemma OneAsked(q: Question)
    ensures forall key :: Asks([q], key) <==> key == q.key
  {
    AsksCons(q, []);
    assert [q] + [] == [q];
  }

  lemma RemembersOne(a: Attempt, q: Question, c: DriverContext)
    ensures Remembers(a.questions, TakeQuestion(a, q, c).questions, [q])
  {
    OneAsked(q);
  }

  lemma RemembersCons(a: seq<string>, m: seq<string>, b: seq<string>, q: Question, qs: seq<Question>)
    requires Remembers(a, m, [q]) && Remembers(m, b, qs)
    ensures Remembers(a, b, [q] + qs)
  {
    OneAsked(q);
    AsksCons(q, qs);
  }

  lemma DraftsOne(a: Attempt, q: Question, c: DriverContext)
    requires DraftsByKey(c)
    ensures Drafts(a.answers, TakeQuestion(a, q, c).answers, [q], c)
  {
    var d := c.decide(q).draft;
    OneAsked(q);
    DraftForIs(a.answers, q.key);
    HasDraftAppend(a.answers, d);
    assert d == c.decide([q][0]).draft;
  }

  lemma DraftsCons(a: seq<AnswerDraft>, m: seq<AnswerDraft>, b: seq<AnswerDraft>, q: Question, qs: seq<Question>,
                   c: DriverContext)
    requires DraftsByKey(c) && Drafts(a, m, [q], c) && Drafts(m, b, qs, c)
    ensures Drafts(a, b, [q] + qs, c)
  {
    OneAsked(q);
    AsksCons(q, qs);
    forall j | |a| <= j < |b| ensures DraftedFor(b[j], [q] + qs, c) && !HasDraft(a, b[j].key) {
      if j < |m| {
        assert b[j] == m[j] && DraftedFor(m[j], [q], c);
        assert b[j] == c.decide(([q] + qs)[0]).draft;
      } else {
        assert DraftedFor(b[j], qs, c) && !HasDraft(m, b[j].key);
        DraftedLater(b[j], q, qs, c);
      }
    }
  }

  lemma DraftedLater(d: AnswerDraft, q: Question, qs: seq<Question>, c: DriverContext)
    requires DraftsByKey(c) && DraftedFor(d, qs, c) && d.key != q.key
    ensures DraftedFor(d, [q] + qs, c)
  {
    var all := [q] + qs;
    var k :| 0 <= k < |qs| && d == c.decide(qs[k]).draft && forall l :: 0 <= l < k ==> qs[l].key != qs[k].key;
    assert all[k + 1] == qs[k];
    assert forall l :: 0 < l < k + 1 ==> all[l] == qs[l - 1];
  }

  /** The questions that were taken: all up to the first one that stops the run. */
  ghost predicate StopsAt(qs: seq<Question>, c: DriverContext, n: nat, paused: bool) {
    && n <= |qs|
    && (forall k :: 0 <= k < n - 1 ==> !c.decide(qs[k]).Stops())
    && (paused <==> n > 0 && c.decide(qs[n - 1]).Stops())
    && (!paused ==> n == |qs|)
  }

  lemma StopsCons(qs: seq<Question>, c: DriverContext, n: nat, paused: bool)
    requires qs != [] && !c.decide(qs[0]).Stops() && StopsAt(qs[1..], c, n, paused)
    ensures StopsAt(qs, c, n + 1, paused)
  {
  }

  /** What taking the questions has made of `a`: the first `n` were taken. */
  ghost predicate Taken(a: Attempt, b: Attempt, paused: bool, qs: seq<Question>, n: nat, c: DriverContext) {
    && StopsAt(qs, c, n, paused)
    && Remembers(a.questions, b.questions, qs[..n])
    && Drafts(a.answers, b.answers, qs[..n], c)
  }

  lemma TakenStop(a: Attempt, qs: seq<Question>, c: DriverContext)
    requires DraftsByKey(c) && qs != [] && c.decide(qs[0]).Stops()
    ensures Taken(a, PauseOn(TakeQuestion(a, qs[0], c), qs[0]), true, qs, 1, c)
  {
    RemembersOne(a, qs[0], c);
    DraftsOne(a, qs[0], c);
    assert qs[..1] == [qs[0]];
  }

  lemma TakenCons(a: Attempt, b: Attempt, paused: bool, qs: seq<Question>, n: nat, c: DriverContext)
    requires DraftsByKey(c) && qs != [] && !c.decide(qs[0]).Stops()
    requires Taken(TakeQuestion(a, qs[0], c), b, paused, qs[1..], n, c)
    ensures Taken(a, b, paused, qs, n + 1, c)
  {
    var m := TakeQuestion(a, qs[0], c);
    RemembersOne(a, qs[0], c);
    DraftsOne(a, qs[0], c);
    StopsCons(qs, c, n, paused);
    assert qs[..n + 1] == [qs[0]] + qs[1..][..n];
    RemembersCons(a.questions, m.questions, b.questions, qs[0], qs[1..][..n]);
    DraftsCons(a.answers, m.answers, b.answers, qs[0], qs[1..][..n], c);
  }

  /** Questions are taken up to the first one that stops the run, that one included. Each is
      remembered once and drafted once, and drafts that were there, answers of the user
      above all, are never replaced. */
  lemma {:induction false} QuestionsTaken(a: Attempt, qs: seq<Question>, c: DriverContext) returns (n: nat)
    requires DraftsByKey(c)
    ensures var (b, paused) := AdvanceQuestions(a, qs, c); Taken(a, b, paused, qs, n, c)
    decreases |qs|
  {
    if qs == [] {
      n := 0;
    } else if c.decide(qs[0]).Stops() {
      n := 1;
      TakenStop(a, qs, c);
    } else {
      var m := TakeQuestion(a, qs[0], c);
      var k := QuestionsTaken(m, qs[1..], c);
      var (b, paused) := AdvanceQuestions(m, qs[1..], c);
      TakenCons(a, b, paused, qs, k, c);
      n := k + 1;
    }
  }

  // ----- How a run ends -----

  /** The latest observation on record is of this page: its address and the start of its text. */
  ghost predicate Seen(a: Attempt, page: Page) {
    && a.observations != []
    && var last := a.observations[|a.observations| - 1];
    && last.url == page.url
    && last.text <= PageText(page)
    && |last.text| == if |PageText(page)| > 500 then 500 else |PageText(page)|
  }

  /** At most forty observations are kept; on the one too many the older half is dropped. */
  lemma ObservationsKept(a: Attempt, s: PageSummary)
    ensures var r := a.RecordObservation(s).observations; var all := a.observations + [s];
            && r <= all[|all| - |r|..] && r[|r| - 1] == s
            && |r| == if |a.observations| < 40 then |a.observations| + 1 else 20
  {
  }

  /** The evidence closes the attempt as submitted if the page says so, and otherwise a human
      reviews it in the browser. */
  ghost predicate Concluded(a: Attempt, b: Attempt, k: OutcomeKind, page: Page, now: int) {
    && var text := Text.Lower(PageText(page));
    && b.evidence == VerifySubmission(page, now)
    && Seen(b, page)
    && if SaysConfirmed(page) || AnyMarker(text, LIKELY_MARKERS) then
         && k.CompletedRun? && b.state.Completed? && b.completedAt == Some(now)
         && b.interventions == a.interventions && b.checkpoints == a.checkpoints + [SubmissionConfirmed]
       else
         && k.Waiting? && b.state.WaitingForHuman? && b.completedAt == a.completedAt
         && b.interventions == a.interventions + [Intervention(UserReview, true, None, a.host, a.session, None)]
         && b.checkpoints == a.checkpoints
  }

  ghost predicate SubmitFailed(a: Attempt, b: Attempt, k: OutcomeKind, page: Page, now: int) {
    && k.FailedRun? && b.state.Failed? && b.completedAt == Some(now) && b.evidence == a.evidence && Seen(b, page)
    && b.interventions == a.interventions && b.checkpoints == a.checkpoints
    && |b.failures| == |a.failures| + 1 && b.failures[|a.failures|].code == "application.submit_failed"
    && b.failures[|a.failures|].checkpoint ==
       if a.checkpoints == [] then None else Some(a.checkpoints[|a.checkpoints| - 1])
  }

  lemma EvidenceConcludes(a: Attempt, page: Page, now: int)
    ensures var (b, k) := HandleEvidence(a.RecordObservation(Summary(page)), VerifySubmission(page, now), now);
            Concluded(a, b, k, page, now) && b.submissionAttemptedAt == a.submissionAttemptedAt && b.mode == a.mode
            && b.answers == a.answers && b.uploads == a.uploads && a.events <= b.events && b.id == a.id
  {
  }

  lemma SubmitSteps(w: World, a: Attempt, submit: Element, now: int)
    ensures var io := Submit(w, a, submit, now); var s := w.script;
            && (io.Done? <==> |s| >= 3 && s[0].Reply? && s[1].Reply? && s[2].Reply?)
            && (io.Done? ==>
                  var m := a.MarkSubmissionAttempted(now); var seen := m.RecordObservation(Summary(s[2].page));
                  && io.world.script == s[3..] && io.world.durable == m
                  && io.value == if s[1].ok then HandleEvidence(seen, VerifySubmission(s[2].page, now), now)
                                 else (seen.Fail("application.submit_failed", now), FailedRun))
  {
  }

  lemma FailureReported(a: Attempt, page: Page, now: int)
    ensures var b := a.RecordObservation(Summary(page)).Fail("application.submit_failed", now);
            SubmitFailed(a, b, FailedRun, page, now) && b.submissionAttemptedAt == a.submissionAttemptedAt
  {
  }

  lemma MarkedNow(a: Attempt, now: int)
    ensures var m := a.MarkSubmissionAttempted(now);
            && m.submissionAttemptedAt == (if a.submissionAttemptedAt.Some? then a.submissionAttemptedAt else Some(now))
            && m.interventions == a.interventions && m.checkpoints == a.checkpoints && m.evidence == a.evidence
            && m.host == a.host && m.session == a.session && m.completedAt == a.completedAt
            && m.failures == a.failures && m.observations == a.observations
  {
  }

  /** A submit that reaches its end has committed the marker, clicked once and read the page.
      A click the browser does not confirm fails the attempt; otherwise the page decides. */
  lemma SubmitEnds(w: World, a: Attempt, submit: Element, now: int)
    requires Submit(w, a, submit, now).Done?
    ensures var io := Submit(w, a, submit, now); var s := w.script;
            && |s| >= 3 && s[1].Reply? && s[2].Reply? && io.world.script == s[3..]
            && io.value.0.submissionAttemptedAt ==
               (if a.submissionAttemptedAt.Some? then a.submissionAttemptedAt else Some(now))
            && if s[1].ok then Concluded(a, io.value.0, io.value.1, s[2].page, now)
               else SubmitFailed(a, io.value.0, io.value.1, s[2].page, now)
  {
    SubmitSteps(w, a, submit, now);
    var m := a.MarkSubmissionAttempted(now);
    MarkedNow(a, now);
    EvidenceConcludes(m, w.script[2].page, now);
    FailureReported(m, w.script[2].page, now);
  }

  /** The file inputs the resume goes to. */
  function Sent(page: Page, c: DriverContext): seq<Element> {
    if c.resume.Some? then FileInputs(page.elements) else []
  }

  /** The uploads on record: those there before, and one of the document for each of `sent`. */
  ghost predicate SentTo(before: seq<Upload>, after: seq<Upload>, sent: seq<Element>, document: Option<string>) {
    && |after| == |before| + |sent| && before <= after
    && forall i :: 0 <= i < |sent| ==>
         after[|before| + i].locator == sent[i].locator && Some(after[|before| + i].path) == document
  }

  /** `g` is `a` with the form filled in and the resume attached. */
  ghost predicate Prepared(a: Attempt, g: Attempt, page: Page, c: DriverContext) {
    && var sent := Sent(page, c);
    && SameSubmission(a, g)
    && g.submissionAttemptedAt == a.submissionAttemptedAt && g.completedAt == a.completedAt
    && g.answers == a.answers && g.questions == a.questions && g.failures == a.failures
    && g.host == a.host && g.session == a.session
    && SentTo(a.uploads, g.uploads, sent, c.resume)
    && g.checkpoints == a.checkpoints + [QuestionnaireComplete] + if sent == [] then [] else [DocumentsUploaded]
  }

  lemma AttachedIs(w: World, a: Attempt, page: Page, c: DriverContext)
    requires FileInputs(page.elements) != [] && UploadDocuments(w, a, page, c).Done?
    ensures var io := UploadDocuments(w, a, page, c); var sent := Sent(page, c);
            && io.world.trace == Extended(w.trace, if sent == [] then [] else Uploadings(sent, c.resume.value))
            && |sent| <= |w.script| && io.world.script == w.script[|sent|..]
            && Attaches(a, io.value, sent, c)
  {
    if c.resume.Some? {
      var inputs := FileInputs(page.elements);
      var n := UploadsExactly(w, a, inputs, c.resume.value);
      assert inputs[..n] == inputs;
    }
  }

  ghost predicate Attaches(a: Attempt, g: Attempt, sent: seq<Element>, c: DriverContext) {
    && g == a.(uploads := g.uploads, checkpoints := g.checkpoints, events := g.events)
    && a.events <= g.events
    && SentTo(a.uploads, g.uploads, sent, c.resume)
    && g.checkpoints == a.checkpoints + if sent == [] then [] else [DocumentsUploaded]
  }

  lemma PreparedIs(a: Attempt, g: Attempt, page: Page, c: DriverContext)
    requires Attaches(a.RecordCheckpoint(QuestionnaireComplete), g, Sent(page, c), c)
    ensures Prepared(a, g, page, c)
  {
    var b := a.RecordCheckpoint(QuestionnaireComplete);
    assert b.uploads == a.uploads && b.checkpoints == a.checkpoints + [QuestionnaireComplete];
    assert SameSubmission(a, b);
  }

  /** A run gets past the form only in a mode that may fill, with every answer filled in and
      the resume attached to every file input. */
  lemma FormPrepared(w: World, a: Attempt, page: Page, c: DriverContext)
    returns (x: World, g: Attempt, es: seq<Effect>, at: seq<nat>)
    requires FillAndSubmit(w, a, page, c).Done?
    ensures c.mode in {FillNoSubmit, AutonomousSubmit}
    ensures FilledFirst(es, at, |page.questions|, a.answers, page.questions)
    ensures var sent := Sent(page, c);
            x.trace == Extended(Extended(w.trace, es), if sent == [] then [] else Uploadings(sent, c.resume.value))
    ensures Prepared(a, g, page, c)
    ensures |es| + |Sent(page, c)| <= |w.script| && x.script == w.script[|es| + |Sent(page, c)|..]
    ensures FillAndSubmit(w, a, page, c) == Decided(x, g, page, c)
  {
    var n: nat;
    es, at, n := FillsExactly(w, a.answers, page.questions);
    var filled := FillAll(w, a.answers, page.questions);
    var b := a.RecordCheckpoint(QuestionnaireComplete);
    x, g := filled.world, b;
    if FileInputs(page.elements) != [] {
      var attached := UploadDocuments(filled.world, b, page, c);
      AttachedIs(filled.world, b, page, c);
      x, g := attached.world, attached.value;
    } else {
      assert b.checkpoints + [] == b.checkpoints;
    }
    PreparedIs(a, g, page, c);
  }

  /** How the decision at the end of the form turns out: without a submit control the run just
      goes on; told not to submit it completes; otherwise the browser's answer to the click
      and the page behind it decide. */
  lemma DecidedEnds(w: World, a: Attempt, page: Page, c: DriverContext)
    requires Decided(w, a, page, c).Done? && c.mode in {FillNoSubmit, AutonomousSubmit}
    ensures var io := Decided(w, a, page, c); var (b, k) := io.value; var s := w.script;
            var submit := FirstSubmit(page.elements, c.isSubmit);
            if submit.None? || c.mode.FillNoSubmit? then
              && (if submit.None? then k.Continued? && b.state == a.state else k.CompletedRun? && b.state.Completed?)
              && b == a.(state := b.state, checkpoints := a.checkpoints + [ReviewPageReached], events := b.events)
              && io.world == w
            else
              && |s| >= 3 && s[1].Reply? && s[2].Reply? && io.world.script == s[3..]
              && b.submissionAttemptedAt ==
                 (if a.submissionAttemptedAt.Some? then a.submissionAttemptedAt else Some(c.now))
              && if s[1].ok then Concluded(a, b, k, s[2].page, c.now) else SubmitFailed(a, b, k, s[2].page, c.now)
  {
    var submit := FirstSubmit(page.elements, c.isSubmit);
    if submit.Some? && c.mode.AutonomousSubmit? {
      SubmitEnds(w, a, submit.value, c.now);
    }
  }

  /** The reason a page needs a human for. */
  function HandoffReason(p: PageCondition): InterventionReason {
    if p.LoginRequired? then AuthenticationRequired
    else if p.HumanChallenge? then CaptchaRequired
    else if p.AutomationBlockedPage? then AutomationBlocked
    else UnknownInteraction
  }

  /** The run stopped for a human: one more open item, and nothing else decided. */
  ghost predicate StoppedFor(a: Attempt, b: Attempt, k: OutcomeKind, reason: InterventionReason, handoff: bool,
                             key: Option<string>) {
    && k.Waiting? && b.state.WaitingForHuman?
    && b.interventions == a.interventions + [Intervention(reason, handoff, key, a.host, a.session, None)]
    && SameProgress(a, b)
  }

  ghost predicate SameProgress(a: Attempt, b: Attempt) {
    && b.id == a.id && b.mode == a.mode && b.submissionAttemptedAt == a.submissionAttemptedAt
    && b.evidence == a.evidence && b.completedAt == a.completedAt && b.host == a.host && b.session == a.session
    && b.uploads == a.uploads && b.failures == a.failures && a.events <= b.events
  }

  /** The form is open: the page is on record, and the run has begun. */
  ghost predicate Opened(a: Attempt, o: Attempt, page: Page) {
    && SameProgress(a, o) && o.state.Running? && o.interventions == a.interventions && Seen(o, page)
    && o.checkpoints == a.checkpoints + [ApplicationOpened]
    && o.events != [] && (a.events == [] ==> o.events[0] == Started)
  }

  /** Which question stopped the run, and why a human is asked. */
  ghost predicate StoppedOn(a: Attempt, b: Attempt, k: OutcomeKind, qs: seq<Question>, c: DriverContext) {
    exists i :: 0 <= i < |qs| && c.decide(qs[i]).Stops() && (forall j :: 0 <= j < i ==> !c.decide(qs[j]).Stops())
                && StoppedFor(a, b, k, if qs[i].legal then LegalAttestation else AmbiguousQuestion, false,
                              Some(qs[i].key))
  }

  lemma {:induction false} QuestionsEnd(a: Attempt, qs: seq<Question>, c: DriverContext)
    ensures var (b, paused) := AdvanceQuestions(a, qs, c);
            && (paused <==> exists q :: q in qs && c.decide(q).Stops())
            && (paused ==> StoppedOn(a, b, Waiting, qs, c))
            && (!paused ==> b == a.(questions := b.questions, answers := b.answers))
    decreases |qs|
  {
    if qs != [] {
      var m := TakeQuestion(a, qs[0], c);
      if c.decide(qs[0]).Stops() {
        StopsHere(a, qs, c);
      } else {
        QuestionsEnd(m, qs[1..], c);
        StopsLater(a, m, qs, c);
        assert forall q :: q in qs <==> q == qs[0] || q in qs[1..];
      }
    }
  }

  lemma StopsHere(a: Attempt, qs: seq<Question>, c: DriverContext)
    requires qs != [] && c.decide(qs[0]).Stops()
    ensures StoppedOn(a, PauseOn(TakeQuestion(a, qs[0], c), qs[0]), Waiting, qs, c)
  {
    var b := PauseOn(TakeQuestion(a, qs[0], c), qs[0]);
    assert StoppedFor(a, b, Waiting, if qs[0].legal then LegalAttestation else AmbiguousQuestion, false,
                      Some(qs[0].key));
  }

  lemma StopsLater(a: Attempt, m: Attempt, qs: seq<Question>, c: DriverContext)
    requires qs != [] && !c.decide(qs[0]).Stops() && m == a.(questions := m.questions, answers := m.answers)
    ensures forall b :: StoppedOn(m, b, Waiting, qs[1..], c) ==> StoppedOn(a, b, Waiting, qs, c)
  {
    forall b | StoppedOn(m, b, Waiting, qs[1..], c) ensures StoppedOn(a, b, Waiting, qs, c) {
      var i :| 0 <= i < |qs[1..]| && c.decide(qs[1..][i]).Stops()
               && (forall j :: 0 <= j < i ==> !c.decide(qs[1..][j]).Stops())
               && StoppedFor(m, b, Waiting, if qs[1..][i].legal then LegalAttestation else AmbiguousQuestion, false,
                             Some(qs[1..][i].key));
      var q := qs[i + 1];
      assert q == qs[1..][i];
      assert StoppedFor(a, b, Waiting, if q.legal then LegalAttestation else AmbiguousQuestion, false, Some(q.key));
      assert forall j :: 0 < j < i + 1 ==> qs[j] == qs[1..][j - 1];
    }
  }

  /** How a run on an unmarked attempt ends that the agent owns and whose page was reached: a
      human is needed, or the form is prepared as `g` and what follows is decided in `x`. */
  ghost predicate Visited(a: Attempt, io: Io<(Attempt, OutcomeKind)>, page: Page, c: DriverContext,
                          o: Attempt, x: World, g: Attempt)
    requires io.Done?
  {
    && Opened(a, o, page)
    && if NeedsHandoff(page.condition) then
         StoppedFor(o, io.value.0, io.value.1, HandoffReason(page.condition), true, None)
       else if !Unpaused(page, c) then StoppedOn(o, io.value.0, io.value.1, page.questions, c)
       else
         && c.mode in {FillNoSubmit, AutonomousSubmit}
         && Prepared(AdvanceQuestions(o, page.questions, c).0, g, page, c)
         && io == Decided(x, g, page, c)
  }

  lemma {:induction false} AskedEnds(w: World, o: Attempt, page: Page, c: DriverContext, io: Io<(Attempt, OutcomeKind)>)
    returns (x: World, g: Attempt)
    requires io.Done? && io == var (b, paused) := AdvanceQuestions(o, page.questions, c);
                               if paused then Done(w, (b, Waiting)) else FillAndSubmit(w, b, page, c)
    ensures if !Unpaused(page, c) then StoppedOn(o, io.value.0, io.value.1, page.questions, c)
            else
              && c.mode in {FillNoSubmit, AutonomousSubmit}
              && Prepared(AdvanceQuestions(o, page.questions, c).0, g, page, c)
              && io == Decided(x, g, page, c)
  {
    x, g := w, o;
    QuestionsEnd(o, page.questions, c);
    var (b, paused) := AdvanceQuestions(o, page.questions, c);
    if !paused {
      var es, at;
      x, g, es, at := FormPrepared(w, b, page, c);
    }
  }

  lemma {:induction false} VisitEnds(w: World, a: Attempt, c: DriverContext) returns (o: Attempt, x: World, g: Attempt)
    requires OpenForm(w, a, c).Done? && a.state.Running? && a.events != []
    ensures w.script != [] && w.script[0].Reply?
    ensures Visited(a, OpenForm(w, a, c), w.script[0].page, c, o, x, g)
  {
    var arrived := w.Navigate(c.applyUrl);
    var page := arrived.value;
    o := a.RecordObservation(Summary(page)).RecordCheckpoint(ApplicationOpened);
    x, g := arrived.world, o;
    assert Opened(a, o, page);
    if !NeedsHandoff(page.condition) {
      x, g := AskedEnds(arrived.world, o, page, c, OpenForm(w, a, c));
    }
  }

  /** How any run ends that reaches its end. Who owns the browser, what the page shows, which
      questions it asks and the mode decide how far it gets; `DecidedEnds` says the rest. */
  lemma {:induction false} RunEnds(w: World, a: Attempt, c: DriverContext) returns (o: Attempt, x: World, g: Attempt)
    requires RunForm(w, a, c).Done?
    ensures w.script != [] && w.script[0].Reply?
    ensures var io := RunForm(w, a, c); var (b, k) := io.value; var s := w.script;
            if !s[0].owner.Agent? then StoppedFor(a, b, k, UnknownInteraction, true, None)
            else
              && |s| >= 2 && s[1].Reply?
              && if a.submissionAttemptedAt.Some? then
                   Concluded(a, b, k, s[1].page, c.now) && b.submissionAttemptedAt == a.submissionAttemptedAt
                 else Visited(a, io, s[1].page, c, o, x, g)
  {
    var s := w.script;
    var owned := w.Emit(Began(c)).ReadOwner();
    o, x, g := a, w, a;
    if owned.value.Agent? {
      var r := a.(state := Running);
      var b := if r.events == [] then r.RecordEvent(Started) else r;
      assert owned.world.script == s[1..];
      if a.submissionAttemptedAt.Some? {
        EvidenceConcludes(b, s[1].page, c.now);
      } else {
        o, x, g := VisitEnds(owned.world, b, c);
        assert Opened(a, o, s[1].page);
      }
    }
  }

  lemma DecidedState(w: World, a: Attempt, page: Page, c: DriverContext)
    requires Decided(w, a, page, c).Done? && c.mode in {FillNoSubmit, AutonomousSubmit} && a.state.Running?
    ensures OutcomeOk(Decided(w, a, page, c).value.0, Decided(w, a, page, c).value.1)
  {
    DecidedEnds(w, a, page, c);
  }

  lemma VisitedState(a: Attempt, io: Io<(Attempt, OutcomeKind)>, page: Page, c: DriverContext, o: Attempt, x: World,
                     g: Attempt)
    requires io.Done? && Visited(a, io, page, c, o, x, g)
    ensures OutcomeOk(io.value.0, io.value.1)
  {
    if !NeedsHandoff(page.condition) && Unpaused(page, c) {
      QuestionsEnd(o, page.questions, c);
      DecidedState(x, g, page, c);
    }
  }

  /** The state a run leaves in memory agrees with the outcome it reports. */
  lemma {:induction false} StateIsReported(w: World, a: Attempt, c: DriverContext)
    requires RunForm(w, a, c).Done?
    ensures OutcomeOk(RunForm(w, a, c).value.0, RunForm(w, a, c).value.1)
  {
    var o, x, g := RunEnds(w, a, c);
    if w.script[0].owner.Agent? && a.submissionAttemptedAt.None? {
      VisitedState(a, RunForm(w, a, c), w.script[1].page, c, o, x, g);
    }
  }
}

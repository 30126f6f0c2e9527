/** Per-client backoff on failed logins. Times are whole seconds. */
module LoginThrottle {
  import opened Powers
  import opened Lists

  const FREE_ATTEMPTS := 5
  const BASE_LOCKOUT := 2
  const MAX_LOCKOUT := 300
  const MAX_TRACKED := 1024

  datatype Entry = Entry(count: nat, lockedUntil: int)

  /** The tracked clients, and the order in which they were first recorded. */
  datatype Book = Book(failures: map<string, Entry>, order: seq<string>) {
    ghost predicate Valid() {
      && (forall c :: c in order <==> c in failures)
      && Unrepeated(order)
      && |order| <= MAX_TRACKED
      && (forall c :: c in failures ==> failures[c].count >= 1)
    }
  }

  const EMPTY: Book := Book(map[], [])

  // ----- Specification -----

  function Penalty(count: nat): nat {
    if count <= FREE_ATTEMPTS then 0
    else
      var doubled := BASE_LOCKOUT * Pow2(count - FREE_ATTEMPTS - 1);
      if doubled < MAX_LOCKOUT then doubled else MAX_LOCKOUT
  }

  function RetryAfter(b: Book, client: string, now: int): nat {
    if client in b.failures && b.failures[client].lockedUntil > now then b.failures[client].lockedUntil - now + 1 else 0
  }

  function Without(order: seq<string>, client: string): seq<string> {
    if order == [] then []
    else if order[0] == client then order[1..]
    else [order[0]] + Without(order[1..], client)
  }

  /** Whether recording this client has to make room by forgetting the oldest one. */
  predicate Evicts(b: Book, client: string) {
    client !in b.failures && |b.failures| >= MAX_TRACKED
  }

  function Failing(b: Book, client: string, now: int): Book {
    var count := (if client in b.failures then b.failures[client].count else 0) + 1;
    var entry := Entry(count, now + Penalty(count));
    if client in b.failures then b.(failures := b.failures[client := entry])
    else if Evicts(b, client) && b.order != [] then
      Book((b.failures - {b.order[0]})[client := entry], b.order[1..] + [client])
    else Book(b.failures[client := entry], b.order + [client])
  }

  function Succeeding(b: Book, client: string): Book {
    Book(b.failures - {client}, Without(b.order, client))
  }

  /** One login: a locked-out client is turned away before the password is looked at. */
  datatype Login = Login(client: string, now: int, correct: bool)

  function Trying(b: Book, l: Login): Book {
    if RetryAfter(b, l.client, l.now) != 0 then b
    else if l.correct then Succeeding(b, l.client)
    else Failing(b, l.client, l.now)
  }

  function Run(b: Book, logins: seq<Login>): Book {
    if logins == [] then b else Trying(Run(b, logins[..|logins| - 1]), logins[|logins| - 1])
  }

  // ----- The throttle as the source runs it -----

  class Throttle {
    var failures: map<string, Entry>
    var order: seq<string>

    function Value(): Book
      reads this
    {
      Book(failures, order)
    }

    constructor ()
      ensures Value() == EMPTY
    {
      failures, order := map[], [];
    }

    method Wait(client: string, now: int) returns (seconds: nat)
      ensures seconds == RetryAfter(Value(), client, now)
    {
      if client !in failures {
        return 0;
      }
      var until := failures[client].lockedUntil;
      seconds := if until > now then until - now + 1 else 0;
    }

    method RecordFailure(client: string, now: int)
      requires Value().Valid()
      modifies this
      ensures Value() == Failing(old(Value()), client, now)
    {
      var count := 1;
      if client in failures {
        count := failures[client].count + 1;
      }
      var penalty := 0;
      if count > FREE_ATTEMPTS {
        penalty := BASE_LOCKOUT * Pow2(count - FREE_ATTEMPTS - 1);
        if penalty > MAX_LOCKOUT {
          penalty := MAX_LOCKOUT;
        }
      }
      if client !in failures {
        if |failures| >= MAX_TRACKED && order != [] {
          failures := failures - {order[0]};
          order := order[1..];
        }
        order := order + [client];
      }
      failures := failures[client := Entry(count, now + penalty)];
    }

    method RecordSuccess(client: string)
      modifies this
      ensures Value() == Succeeding(old(Value()), client)
    {
      failures := failures - {client};
      order := Without(order, client);
    }

    method LogIn(l: Login) returns (wait: nat)
      requires Value().Valid()
      modifies this
      ensures wait == RetryAfter(old(Value()), l.client, l.now)
      ensures Value() == Trying(old(Value()), l)
    {
      wait := Wait(l.client, l.now);
      if wait == 0 {
        if l.correct {
          RecordSuccess(l.client);
        } else {
          RecordFailure(l.client, l.now);
        }
      }
    }
  }

  // ----- The book stays small -----

  lemma {:induction false} WithoutIs(order: seq<string>, client: string)
    requires Unrepeated(order)
    ensures var r := Without(order, client);
            Unrepeated(r) && |r| <= |order| && (forall c :: c in r <==> c in order && c != client)
  {
    if order != [] {
      assert order == [order[0]] + order[1..];
      assert forall i :: 1 <= i < |order| ==> order[i] != order[0];
      assert order[0] !in order[1..];
      if order[0] != client {
        var r := Without(order[1..], client);
        WithoutIs(order[1..], client);
        assert order[0] !in r;
      }
    }
  }

  lemma {:induction false} OrderCounts(order: seq<string>, tracked: set<string>)
    requires forall c :: c in order <==> c in tracked
    requires Unrepeated(order)
    ensures |order| == |tracked|
    decreases |order|
  {
    if order == [] {
      assert tracked == {};
    } else {
      assert order == [order[0]] + order[1..];
      assert forall c :: c in order[1..] ==> c != order[0];
      OrderCounts(order[1..], tracked - {order[0]});
    }
  }

  lemma FailingValid(b: Book, client: string, now: int)
    requires b.Valid()
    ensures Failing(b, client, now).Valid()
  {
    OrderCounts(b.order, b.failures.Keys);
    assert |b.failures| == |b.failures.Keys|;
    if client !in b.failures && b.order != [] {
      assert b.order == [b.order[0]] + b.order[1..];
      assert forall i :: 1 <= i < |b.order| ==> b.order[i] != b.order[0];
      assert forall c :: c in b.order[1..] <==> c in b.order && c != b.order[0];
    }
  }

  lemma TryingValid(b: Book, l: Login)
    requires b.Valid()
    ensures Trying(b, l).Valid()
  {
    FailingValid(b, l.client, l.now);
    WithoutIs(b.order, l.client);
  }

  /** Over any logins of any clients the book never tracks more than its limit. */
  lemma {:induction false} NeverExceedsLimit(logins: seq<Login>)
    ensures var b := Run(EMPTY, logins); b.Valid() && |b.failures| <= 1024
  {
    if logins != [] {
      NeverExceedsLimit(logins[..|logins| - 1]);
      TryingValid(Run(EMPTY, logins[..|logins| - 1]), logins[|logins| - 1]);
    }
    var b := Run(EMPTY, logins);
    OrderCounts(b.order, b.failures.Keys);
    assert |b.failures| == |b.failures.Keys|;
  }

  /** A client is forgotten exactly when it logs in, or is the oldest one tracked when a
      new client fails and the book is full. Nothing else touches another client's entry. */
  lemma ForgottenIff(b: Book, l: Login, client: string)
    requires b.Valid() && client in b.failures
    ensures var n := Trying(b, l); var admitted := RetryAfter(b, l.client, l.now) == 0;
            && (client !in n.failures <==>
                  || (admitted && l.correct && l.client == client)
                  || (admitted && !l.correct && Evicts(b, l.client) && b.order[0] == client))
            && (client in n.failures && client != l.client ==> n.failures[client] == b.failures[client])
  {
  }

  // ----- The lockout slows a client down -----

  /** When a client may try again: after one second less than it is told, and no earlier. */
  lemma AdmittedExactlyThen(b: Book, client: string, now: int, later: int)
    requires RetryAfter(b, client, now) > 0
    ensures RetryAfter(b, client, later) == 0 <==> later >= now + RetryAfter(b, client, now) - 1
  {
  }

  predicate Records(b: Book, l: Login, client: string) {
    l.client == client && !l.correct && RetryAfter(b, client, l.now) == 0
  }

  /** The times of the failures on a client's current count: those since it was last
      forgotten. */
  function Times(logins: seq<Login>, client: string): seq<int> {
    if logins == [] then []
    else
      var past := logins[..|logins| - 1];
      var l := logins[|logins| - 1];
      var b := Run(EMPTY, past);
      if client !in Trying(b, l).failures then []
      else if Records(b, l, client) then (if client in b.failures then Times(past, client) else []) + [l.now]
      else Times(past, client)
  }

  function Total(n: nat): nat {
    if n == 0 then 0 else Total(n - 1) + Penalty(n)
  }

  lemma {:induction false} PenaltyValues(n: nat)
    requires n >= 14
    ensures Penalty(n) == MAX_LOCKOUT
  {
    PowGrows(8, n - 6);
    assert Pow2(8) == 256;
  }

  lemma {:induction false} TotalValues(n: nat)
    requires n >= 13
    ensures Total(n) == 510 + 300 * (n - 13)
  {
    if n == 13 {
      assert Total(5) == 0;
      assert Pow2(0) == 1 && Pow2(2) == 4 && Pow2(4) == 16 && Pow2(6) == 64;
      assert Total(7) == 6 && Total(9) == 30 && Total(11) == 126 && Total(13) == 510;
    } else {
      TotalValues(n - 1);
      PenaltyValues(n);
    }
  }

  ghost predicate Spaced(times: seq<int>) {
    forall i :: 1 <= i < |times| ==> times[i] >= times[i - 1] + Penalty(i)
  }

  /** The count is the number of failures since the client was last forgotten, each at
      least a penalty after the one before; the lockout runs from the last one. */
  lemma {:induction false} CountIsStreak(logins: seq<Login>, client: string)
    ensures var b := Run(EMPTY, logins); var t := Times(logins, client);
            if client in b.failures then
              t != [] && |t| == b.failures[client].count && Spaced(t)
              && b.failures[client].lockedUntil == t[|t| - 1] + Penalty(|t|)
            else t == []
  {
    if logins != [] {
      var past := logins[..|logins| - 1];
      var l := logins[|logins| - 1];
      CountIsStreak(past, client);
      NeverExceedsLimit(past);
      var b := Run(EMPTY, past);
      if client in b.failures {
        ForgottenIff(b, l, client);
      }
    }
  }

  lemma {:induction false} SpacedSpan(times: seq<int>, n: nat)
    requires Spaced(times) && 1 <= n <= |times|
    ensures times[n - 1] >= times[0] + Total(n - 1)
  {
    if n > 1 {
      SpacedSpan(times, n - 1);
    }
  }

  /** A client that is neither forgotten nor successful needs at least 510 + 300 (n - 14)
      seconds between its first and its n-th failed attempt, for any n from 14 on, however
      its attempts are timed and whatever other clients do. */
  lemma FailuresTakeTime(logins: seq<Login>, client: string, n: nat)
    requires 14 <= n <= |Times(logins, client)|
    ensures var t := Times(logins, client); t[n - 1] - t[0] >= 510 + 300 * (n - 14)
  {
    CountIsStreak(logins, client);
    SpacedSpan(Times(logins, client), n);
    TotalValues(n - 1);
  }

  /** The client that always tries as early as it may. */
  function Earliest(client: string, n: nat): seq<Login> {
    if n == 0 then [] else Earliest(client, n - 1) + [Login(client, Total(n - 1), false)]
  }

  /** The bound cannot be improved: trying as early as possible meets it exactly. */
  lemma {:induction false} BoundIsExact(client: string, n: nat)
    ensures var logins := Earliest(client, n); var t := Times(logins, client);
            && |t| == n && (forall i :: 0 <= i < n ==> t[i] == Total(i))
            && Run(EMPTY, logins) == if n == 0 then EMPTY
                                     else Book(map[client := Entry(n, Total(n))], [client])
  {
    if n > 0 {
      BoundIsExact(client, n - 1);
      var logins := Earliest(client, n);
      assert logins[..|logins| - 1] == Earliest(client, n - 1);
    }
  }
}

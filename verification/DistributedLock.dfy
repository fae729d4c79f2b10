/** The lease lock over one Redis key, `shared/distributed_lock.py`. Times are milliseconds of Redis' clock. */
module DistributedLock {
  import opened DecimalUtils

  /** Every lock object draws its own token, so a client is its token. */
  type Client = nat

  datatype Entry = Entry(token: Client, expiresAt: int)

  /** The key, and for each client that acquired and has not released, until when it may count on it. */
  datatype State = State(key: Option<Entry>, leases: map<Client, int>)

  /** SET NX EX, the release script, EXPIRE. */
  datatype Op = TrySet | Release | Extend

  datatype Event = Event(at: int, client: Client, op: Op)

  /** The TTL each client uses for the name; whether any client extends without holding an unexpired lease; and
      whether it then counts that as a renewal, since extend() discards the reply and cannot tell. */
  datatype Setup = Setup(ttl: Client -> int, extendsLate: bool, trustsLateExtend: bool)

  const START := State(None, map[])

  predicate Live(key: Option<Entry>, now: int) { key.Some? && now < key.value.expiresAt }

  predicate Holds(s: State, c: Client, now: int) { c in s.leases && now < s.leases[c] }

  function Step(u: Setup, s: State, e: Event): State {
    var until := e.at + u.ttl(e.client);
    match e.op
    case TrySet =>
      if Live(s.key, e.at) then s else State(Some(Entry(e.client, until)), s.leases[e.client := until])
    case Release =>
      State(if Live(s.key, e.at) && s.key.value.token == e.client then None else s.key, s.leases - {e.client})
    case Extend =>
      State(if Live(s.key, e.at) then Some(s.key.value.(expiresAt := until)) else s.key,
            if e.client in s.leases && (e.at < s.leases[e.client] || u.trustsLateExtend) then
              s.leases[e.client := until]
            else s.leases)
  }

  function Run(u: Setup, events: seq<Event>): State {
    if events == [] then START else Step(u, Run(u, events[..|events| - 1]), events[|events| - 1])
  }

  /** The runs a setup allows: without late extends, every extend is issued under an unexpired lease. */
  predicate Allowed(u: Setup, events: seq<Event>)
    decreases |events|
  {
    u.extendsLate || events == [] ||
    var before, e := events[..|events| - 1], events[|events| - 1];
    Allowed(u, before) && (e.op.Extend? ==> Holds(Run(u, before), e.client, e.at))
  }

  predicate Timed(events: seq<Event>) { forall i, j :: 0 <= i < j < |events| ==> events[i].at <= events[j].at }

  predicate NotBefore(events: seq<Event>, now: int) { forall e :: e in events ==> e.at <= now }

  /** One TTL for the name. */
  ghost predicate OneTtl(u: Setup) { forall c, d :: u.ttl(c) == u.ttl(d) }

  /** Whoever holds an unexpired lease owns the key, for at least as long. */
  predicate Owns(s: State, c: Client, now: int) {
    Live(s.key, now) && s.key.value.token == c && c in s.leases && s.leases[c] <= s.key.value.expiresAt
  }

  ghost predicate HoldersOwn(s: State, now: int) { forall c :: Holds(s, c, now) ==> Owns(s, c, now) }

  /** Under one TTL, in addition, no expiry lies further ahead than a fresh one. */
  ghost predicate Inv(s: State, now: int, ttl: int) {
    && HoldersOwn(s, now)
    && (s.key.Some? ==> s.key.value.expiresAt <= now + ttl)
  }

  /** One operation of any client keeps the invariant, and does not disturb another holder: its lease and
      its key stand, and the key's expiry is never brought forward. */
  lemma StepKeepsInv(u: Setup, s: State, e: Event, now: int)
    requires OneTtl(u) && !u.trustsLateExtend && u.ttl(e.client) > 0 && now <= e.at && Inv(s, now, u.ttl(e.client))
    ensures Inv(Step(u, s, e), e.at, u.ttl(e.client))
    ensures forall d :: d != e.client && Holds(s, d, e.at) ==>
              Holds(Step(u, s, e), d, e.at) && Step(u, s, e).leases[d] == s.leases[d] && Step(u, s, e).key.Some?
              && Step(u, s, e).key.value.token == d && s.key.value.expiresAt <= Step(u, s, e).key.value.expiresAt
  {
    var after := Step(u, s, e);
    forall d | Holds(s, d, e.at) ensures Owns(s, d, e.at) { assert Holds(s, d, now); }
    forall d | Holds(after, d, e.at) ensures Owns(after, d, e.at) {
      assert d != e.client ==> Holds(s, d, e.at);
      assert e.op.Extend? && d == e.client ==> Holds(s, d, e.at);
    }
  }

  /** The same without any condition on the TTLs, as long as extends are not late. */
  lemma TimelyStepKeepsOwners(u: Setup, s: State, e: Event, now: int)
    requires u.ttl(e.client) > 0 && now <= e.at && HoldersOwn(s, now)
    requires e.op.Extend? ==> Holds(s, e.client, e.at)
    ensures HoldersOwn(Step(u, s, e), e.at)
  {
    var after := Step(u, s, e);
    forall d | Holds(s, d, e.at) ensures Owns(s, d, e.at) { assert Holds(s, d, now); }
    forall d | Holds(after, d, e.at) ensures Owns(after, d, e.at) {
      assert d != e.client ==> Holds(s, d, e.at);
    }
  }

  lemma {:induction false} TimelyRunKeepsOwners(u: Setup, events: seq<Event>, now: int)
    requires !u.extendsLate && (forall c :: u.ttl(c) > 0) && Timed(events) && NotBefore(events, now)
             && Allowed(u, events)
    ensures HoldersOwn(Run(u, events), now)
    decreases |events|
  {
    if events == [] {
    } else {
      var before, last := events[..|events| - 1], events[|events| - 1];
      assert last in events;
      forall e | e in before ensures e.at <= last.at { }
      TimelyRunKeepsOwners(u, before, last.at);
      TimelyStepKeepsOwners(u, Run(u, before), last, last.at);
      OwnersAge(Run(u, events), last.at, now);
    }
  }

  lemma OwnersAge(s: State, earlier: int, later: int)
    requires earlier <= later && HoldersOwn(s, earlier)
    ensures HoldersOwn(s, later)
  {
    forall c | Holds(s, c, later) ensures Owns(s, c, later) { assert Holds(s, c, earlier); }
  }

  lemma {:induction false} RunKeepsInv(u: Setup, events: seq<Event>, now: int, c: Client)
    requires OneTtl(u) && !u.trustsLateExtend && u.ttl(c) > 0 && Timed(events) && NotBefore(events, now)
    ensures Inv(Run(u, events), now, u.ttl(c))
    decreases |events|
  {
    if events == [] {
    } else {
      var before, last := events[..|events| - 1], events[|events| - 1];
      assert last in events && u.ttl(last.client) == u.ttl(c);
      forall e | e in before ensures e.at <= last.at { }
      RunKeepsInv(u, before, last.at, c);
      StepKeepsInv(u, Run(u, before), last, last.at);
      InvAges(Run(u, events), last.at, now, u.ttl(c));
    }
  }

  lemma InvAges(s: State, earlier: int, later: int, ttl: int)
    requires earlier <= later && Inv(s, earlier, ttl)
    ensures Inv(s, later, ttl)
  {
    OwnersAge(s, earlier, later);
  }

  /** No two clients hold an unexpired lease at `now`, the run's events lying before it. */
  ghost predicate Exclusive(u: Setup, events: seq<Event>, now: int) {
    forall c, d :: Holds(Run(u, events), c, now) && Holds(Run(u, events), d, now) ==> c == d
  }

  ghost predicate AlwaysExclusive(u: Setup) {
    forall events, now :: Timed(events) && NotBefore(events, now) && Allowed(u, events) ==> Exclusive(u, events, now)
  }

  /** Main result: the lock excludes in every timed run exactly when no client extends late, or all clients of
      the name use one TTL and none takes a late extend for a renewal. */
  lemma ExcludesIff(u: Setup)
    requires forall c :: u.ttl(c) > 0
    ensures AlwaysExclusive(u) <==> !u.extendsLate || (OneTtl(u) && !u.trustsLateExtend)
  {
    if !u.extendsLate || (OneTtl(u) && !u.trustsLateExtend) {
      forall events, now | Timed(events) && NotBefore(events, now) && Allowed(u, events)
        ensures Exclusive(u, events, now)
      {
        if !u.extendsLate { TimelyRunKeepsOwners(u, events, now); } else { RunKeepsInv(u, events, now, 0); }
      }
    } else if u.trustsLateExtend {
      LateExtendDoubles(u);
    } else {
      var c, d :| u.ttl(c) < u.ttl(d);
      ForeignExtendShortens(u, c, d);
    }
  }

  /** As the repository uses it, acquiring and releasing only: exclusive whatever the TTLs are. */
  lemma {:induction false} ExcludesWithoutExtend(u: Setup, events: seq<Event>, now: int)
    requires (forall c :: u.ttl(c) > 0) && Timed(events) && NotBefore(events, now)
    requires forall e :: e in events ==> !e.op.Extend?
    ensures Exclusive(u, events, now)
  {
    var timely := u.(extendsLate := false);
    NoExtendIsAllowed(timely, events);
    SameRun(u, timely, events);
    TimelyRunKeepsOwners(timely, events, now);
  }

  lemma {:induction false} NoExtendIsAllowed(u: Setup, events: seq<Event>)
    requires forall e :: e in events ==> !e.op.Extend?
    ensures Allowed(u, events)
    decreases |events|
  {
    if events == [] {
    } else {
      assert events[|events| - 1] in events;
      NoExtendIsAllowed(u, events[..|events| - 1]);
    }
  }

  lemma {:induction false} SameRun(u: Setup, v: Setup, events: seq<Event>)
    requires v == u.(extendsLate := v.extendsLate)
    ensures Run(u, events) == Run(v, events)
    decreases |events|
  {
    if events == [] {
    } else {
      SameRun(u, v, events[..|events| - 1]);
    }
  }

  /** A client whose lease lapsed, and which takes its late extend for a renewal, holds beside its successor. */
  lemma LateExtendDoubles(u: Setup)
    requires u.ttl(0) > 0 && u.ttl(1) > 0 && u.extendsLate && u.trustsLateExtend
    ensures !AlwaysExclusive(u)
  {
    var t := u.ttl(0);
    var e0, e1, e2 := Event(0, 0, TrySet), Event(t, 1, TrySet), Event(t, 0, Extend);
    var events := [e0, e1, e2];
    RunOfThree(u, e0, e1, e2);
    assert Holds(Run(u, events), 0, t) && Holds(Run(u, events), 1, t);
    assert !Exclusive(u, events, t);
  }

  /** A client with a shorter TTL shortens its successor's key by a late extend, and gets in beside it. */
  lemma ForeignExtendShortens(u: Setup, c: Client, d: Client)
    requires 0 < u.ttl(c) < u.ttl(d) && u.extendsLate && !u.trustsLateExtend
    ensures !AlwaysExclusive(u)
  {
    var t := u.ttl(c);
    var e0, e1, e2, e3 := Event(0, c, TrySet), Event(t, d, TrySet), Event(t, c, Extend), Event(2 * t, c, TrySet);
    var events := [e0, e1, e2, e3];
    RunOfThree(u, e0, e1, e2);
    assert events[..3] == [e0, e1, e2];
    assert Holds(Run(u, events), c, 2 * t) && Holds(Run(u, events), d, 2 * t);
    assert !Exclusive(u, events, 2 * t);
  }

  lemma RunOfThree(u: Setup, e0: Event, e1: Event, e2: Event)
    ensures Run(u, [e0, e1, e2]) == Step(u, Step(u, Step(u, START, e0), e1), e2)
  {
    assert [e0, e1, e2][..2] == [e0, e1] && [e0, e1][..1] == [e0] && [e0][..0] == [];
    assert Run(u, [e0]) == Step(u, START, e0);
    assert Run(u, [e0, e1]) == Step(u, Run(u, [e0]), e1);
  }

  // ---------- who has the lock, read off the list of events alone ----------

  /** No event after `i`, among the first `n`, is a release by the client of event `i`. */
  predicate Unreleased(events: seq<Event>, i: nat, n: nat)
    requires i < n <= |events|
  {
    forall j :: i < j < n && events[j].op.Release? ==> events[j].client != events[i].client
  }

  /** After the first `n` events, the try at `i` got the lock and is neither released nor expired at `now`. */
  ghost predicate Standing(u: Setup, events: seq<Event>, i: nat, n: nat, now: int)
    requires i < n <= |events|
    decreases n, 0
  {
    Got(u, events, i) && Unreleased(events, i, n) && now < events[i].at + u.ttl(events[i].client)
  }

  ghost predicate Occupied(u: Setup, events: seq<Event>, n: nat, now: int)
    requires n <= |events|
    decreases n, 1
  {
    exists i :: 0 <= i < n && Standing(u, events, i, n, now)
  }

  /** A try gets the lock when nobody's earlier try still stands. */
  ghost predicate Got(u: Setup, events: seq<Event>, i: nat)
    requires i < |events|
    decreases i, 2
  {
    events[i].op.TrySet? && !Occupied(u, events, i, events[i].at)
  }

  lemma StandingEarlier(u: Setup, events: seq<Event>, i: nat, n: nat, earlier: int, later: int)
    requires i < n < |events| && earlier <= later && Standing(u, events, i, n + 1, later)
    ensures Standing(u, events, i, n, earlier) && Standing(u, events, i, n, later)
  {
  }

  lemma {:induction false} KeyStands(u: Setup, events: seq<Event>, n: nat, now: int)
    requires n <= |events| && Timed(events) && (forall e :: e in events ==> !e.op.Extend?)
    requires n > 0 ==> events[n - 1].at <= now
    ensures forall i :: 0 <= i < n && Standing(u, events, i, n, now) ==>
              Live(Run(u, events[..n]).key, now) && Run(u, events[..n]).key.value.token == events[i].client
    ensures Live(Run(u, events[..n]).key, now) ==> Occupied(u, events, n, now)
    decreases n
  {
    if n == 0 {
    } else {
      var e, s := events[n - 1], Run(u, events[..n - 1]);
      assert e in events && events[..n][..n - 1] == events[..n - 1];
      KeyStands(u, events, n - 1, e.at);
      KeyStands(u, events, n - 1, now);
      forall i | 0 <= i < n - 1 && Standing(u, events, i, n, now)
        ensures Live(s.key, now) && Live(s.key, e.at) && s.key.value.token == events[i].client
        ensures e.op.Release? ==> e.client != s.key.value.token
      {
        StandingEarlier(u, events, i, n - 1, e.at, now);
      }
      if Live(Run(u, events[..n]).key, now) {
        if e.op.TrySet? && !Live(s.key, e.at) {
          assert Got(u, events, n - 1);
          assert Standing(u, events, n - 1, n, now);
        } else {
          var i :| 0 <= i < n - 1 && Standing(u, events, i, n - 1, now);
          assert Standing(u, events, i, n, now);
        }
      }
    }
  }

  lemma KeyLiveIff(u: Setup, events: seq<Event>, now: int)
    requires Timed(events) && NotBefore(events, now) && (forall e :: e in events ==> !e.op.Extend?)
    ensures Live(Run(u, events).key, now) <==> Occupied(u, events, |events|, now)
  {
    assert events[..|events|] == events;
    assert |events| > 0 ==> events[|events| - 1] in events;
    KeyStands(u, events, |events|, now);
  }

  lemma RunExtended(u: Setup, events: seq<Event>, e: Event)
    ensures Run(u, events + [e]) == Step(u, Run(u, events), e)
  {
    assert (events + [e])[..|events|] == events;
  }

  /** Main result on availability: whatever the clients acquire and release, the key is live exactly while some
      try that got the lock is neither released nor expired; so the next try succeeds iff there is none. */
  lemma TrySucceedsIff(u: Setup, events: seq<Event>, now: int, c: Client)
    requires Timed(events) && NotBefore(events, now) && u.ttl(c) > 0 && (forall e :: e in events ==> !e.op.Extend?)
    ensures Run(u, events + [Event(now, c, TrySet)]) ==
            if Occupied(u, events, |events|, now) then Run(u, events)
            else State(Some(Entry(c, now + u.ttl(c))), Run(u, events).leases[c := now + u.ttl(c)])
  {
    KeyLiveIff(u, events, now);
    RunExtended(u, events, Event(now, c, TrySet));
  }

  /** Once a holder has released, the next try of any client gets the key and an unexpired lease. */
  lemma ReleaseFrees(u: Setup, events: seq<Event>, now: int, c: Client, d: Client, later: int)
    requires (forall x :: u.ttl(x) > 0) && Timed(events) && NotBefore(events, now) && now <= later
    requires (forall e :: e in events ==> !e.op.Extend?) && Holds(Run(u, events), c, now)
    ensures var after := Run(u, events + [Event(now, c, Release), Event(later, d, TrySet)]);
            Holds(after, d, later) && after.key == Some(Entry(d, later + u.ttl(d)))
  {
    var timely := u.(extendsLate := false);
    NoExtendIsAllowed(timely, events);
    SameRun(u, timely, events);
    TimelyRunKeepsOwners(timely, events, now);
    var released := events + [Event(now, c, Release)];
    RunExtended(u, events, Event(now, c, Release));
    RunExtended(u, released, Event(later, d, TrySet));
    assert released + [Event(later, d, TrySet)] == events + [Event(now, c, Release), Event(later, d, TrySet)];
  }

  // ---------- the polling loop, with the other clients at work while it sleeps ----------

  const POLL_MS := 200

  /** The key as one name's clients share it; `leases` is what each of them may count on. */
  class SharedKey {
    const ttl: int
    var now: int
    var key: Option<Entry>
    ghost var leases: map<Client, int>

    ghost function Setting(): Setup { Setup(_ => ttl, true, false) }

    ghost function AsState(): State
      reads this
    {
      State(key, leases)
    }

    ghost predicate Valid()
      reads this
    {
      ttl > 0 && Inv(AsState(), now, ttl)
    }

    constructor (ttl: int, now: int)
      requires ttl > 0
      ensures Valid() && this.ttl == ttl && this.now == now && AsState() == START
    {
      this.ttl, this.now, key, leases := ttl, now, None, map[];
    }

    /** SET key token NX EX ttl. */
    method SetIfAbsent(c: Client) returns (acquired: bool)
      requires Valid()
      modifies this`key, this`leases
      ensures Valid() && AsState() == Step(Setting(), old(AsState()), Event(now, c, TrySet))
      ensures acquired <==> !Live(old(key), now)
      ensures if acquired then key == Some(Entry(c, now + ttl)) && leases == old(leases)[c := now + ttl]
              else key == old(key) && leases == old(leases)
    {
      StepKeepsInv(Setting(), AsState(), Event(now, c, TrySet), now);
      acquired := key.None? || now >= key.value.expiresAt;
      if acquired {
        key := Some(Entry(c, now + ttl));
        leases := leases[c := now + ttl];
      }
    }

    /** release(): deletes the key only if it still carries the caller's token. */
    method EvalRelease(c: Client)
      requires Valid()
      modifies this`key, this`leases
      ensures Valid() && AsState() == Step(Setting(), old(AsState()), Event(now, c, Release))
      ensures key == if Live(old(key), now) && old(key).value.token == c then None else old(key)
      ensures leases == old(leases) - {c}
    {
      StepKeepsInv(Setting(), AsState(), Event(now, c, Release), now);
      if key.Some? && now < key.value.expiresAt && key.value.token == c { key := None; }
      leases := leases - {c};
    }

    /** extend(): EXPIRE, whoever the key belongs to. */
    method Expire(c: Client)
      requires Valid()
      modifies this`key, this`leases
      ensures Valid() && AsState() == Step(Setting(), old(AsState()), Event(now, c, Extend))
      ensures key == if Live(old(key), now) then Some(Entry(old(key).value.token, now + ttl)) else old(key)
    {
      StepKeepsInv(Setting(), AsState(), Event(now, c, Extend), now);
      if key.Some? && now < key.value.expiresAt { key := Some(key.value.(expiresAt := now + ttl)); }
      if c in leases && now < leases[c] { leases := leases[c := now + ttl]; }
    }

    method Wait(ms: int)
      requires Valid() && ms >= 0
      modifies this`now
      ensures Valid() && now == old(now) + ms
    {
      InvAges(AsState(), now, now + ms, ttl);
      now := now + ms;
    }

    /** Everything other clients may do while `me` sleeps for at least `ms`. */
    method Sleep(me: Client, ms: int)
      requires Valid() && ms >= 0
      modifies this
      ensures Valid() && now >= old(now) + ms
      ensures (me in leases <==> me in old(leases)) && (me in leases ==> leases[me] == old(leases)[me])
    {
      var steps: nat := *;
      while steps > 0
        invariant Valid() && now >= old(now)
        invariant (me in leases <==> me in old(leases)) && (me in leases ==> leases[me] == old(leases)[me])
      {
        var other, pause :| other >= 0 && pause >= 0;
        var op: Op := *;
        Wait(pause);
        if other != me {
          match op {
            case TrySet => var _ := SetIfAbsent(other);
            case Release => EvalRelease(other);
            case Extend => Expire(other);
          }
        }
        steps := steps - 1;
      }
      Wait(ms);
    }

    /** acquire(): True means the caller holds an unexpired lease and nobody else does; False means the
        deadline passed with the key live at the last try. At most one try per started poll interval, plus one. */
    method Acquire(me: Client, timeoutMs: int) returns (ok: bool, tries: nat)
      requires Valid()
      modifies this
      ensures Valid()
      ensures ok ==> Holds(AsState(), me, now) && leases[me] == now + ttl
                     && forall d :: Holds(AsState(), d, now) ==> d == me
      ensures !ok ==> now >= old(now) + timeoutMs && Live(key, now)
      ensures 1 <= tries && (tries - 2) * POLL_MS < Pos(timeoutMs)
    {
      var deadline := now + timeoutMs;
      tries := 0;
      while true
        invariant Valid()
        invariant now >= old(now) + tries * POLL_MS
        invariant tries > 0 ==> (tries - 1) * POLL_MS < timeoutMs
        decreases Pos(deadline - now)
      {
        ok := SetIfAbsent(me);
        tries := tries + 1;
        if ok { return; }
        if now >= deadline { return; }
        Sleep(me, POLL_MS);
      }
    }
  }

  function Pos(x: int): nat { if x < 0 then 0 else x }
}

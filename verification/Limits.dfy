/** Inputs on which the guarantees stop: each lemma names one, and what it loses. */
module Limits {
  import opened BrokerTypes
  import opened BrokerSpec
  import opened BrokerSteps
  import opened Orders
  import opened Events
  import opened Records
  import opened Registries
  import opened Survival
  import opened Releases
  import opened Composites
  import opened SafeRuns
  import opened LateReleases
  import opened Fencing
  import opened FencedRuns
  import opened BaseTokens

  const A := Key([65])
  const B := Key([66])

  function Clock(now: int): Env {
    Env(now, (u: Uuid) => now, {1, 2})
  }

  function Plainly(k: Key, u: ClientUuid, max: RawMax): LockReq {
    LockReq(k, u, max, NoTtl, false, false, true)
  }

  const EMPTY := Start(Fence(false, 0, 0, None), 5000)

  /** Client 1 holds key A since time 100. */
  const ONE_HOLDER: State := State(
    Table(map[A := LockObj(1, 1, 101, map[Client(1) := Holder(1, 101, None, Finite(5100))], [], {}, {}, None)],
          map[Client(1) := Row(A, 5100)], 0, EMPTY.t.fence, [Took(Mint(A, 101), 1, 1)]),
    map[], [LockFrame(1, Client(1), A, 0, true, Some(101))], [1], map[1 := {Client(1)}], {}, 1, 5000)

  const FIRST_LOCK := Input(LockEvent(1, Plainly(A, Client(1), Absent)), Clock(100))

  lemma FirstLock()
    ensures Step(EMPTY, FIRST_LOCK.event, FIRST_LOCK.env) == ONE_HOLDER
  {
    var req, env := Plainly(A, Client(1), Absent), Clock(100);
    var s1 := Register(EMPTY, 1, req, env);
    assert s1.t.locks == map[] && s1.wsUuids[1] == {Client(1)};
    assert s1 == EMPTY.(lockCounts := 1, wsUuids := map[1 := {Client(1)}]);
    FirstGrant(s1, s1.(t := Materialize(s1.t, A, 1, env)));
  }

  lemma FirstGrant(s1: State, s2: State)
    requires s1 == EMPTY.(lockCounts := 1, wsUuids := map[1 := {Client(1)}])
    requires s2 == s1.(t := Materialize(s1.t, A, 1, Clock(100)))
    ensures GrantNow(s2, 1, Plainly(A, Client(1), Absent), Finite(5000), Clock(100)) == ONE_HOLDER
  {
    var s3 := GrantNow(s2, 1, Plainly(A, Client(1), Absent), Finite(5000), Clock(100));
    var held := map[Client(1) := Holder(1, 101, None, Finite(5100))];
    assert |held| == |held.Keys| && held.Keys == {Client(1)};
    assert s3.t.locks == ONE_HOLDER.t.locks;
    assert s3.t.deadlines == ONE_HOLDER.t.deadlines;
  }

  // ----- A raised max -----

  const SECOND_LOCK := Input(LockEvent(2, Plainly(A, Client(2), Absent)), Clock(100))
  const RAISING_LOCK := Input(LockEvent(1, Plainly(A, Client(3), Int(3))), Clock(100))

  const QUEUED := ONE_HOLDER.t.locks[A].(notify := [Waiter(2, Client(2), Finite(5000), None)])

  lemma SecondLock()
    ensures var s := Step(ONE_HOLDER, SECOND_LOCK.event, SECOND_LOCK.env);
      s.t.locks == map[A := QUEUED] && s.lockCounts == 2 && s.closed == {} && s.lockExpiresAfter == 5000
  {
    var req, env := Plainly(A, Client(2), Absent), Clock(100);
    var s1 := Register(ONE_HOLDER, 2, req, env);
    SecondRegisters(s1);
    StepDecides(ONE_HOLDER, 2, req, env, s1, s1);
    SecondDecides(s1);
  }

  lemma SecondRegisters(s1: State)
    requires s1 == Register(ONE_HOLDER, 2, Plainly(A, Client(2), Absent), Clock(100))
    ensures s1.t.locks == ONE_HOLDER.t.locks && s1.lockCounts == 2 && s1.closed == {} && s1.lockExpiresAfter == 5000
    ensures s1.(t := SetMax(s1.t, A, Absent)) == s1
  {}

  lemma SecondDecides(s1: State)
    requires s1.t.locks == ONE_HOLDER.t.locks && s1.lockCounts == 2 && s1.closed == {}
    ensures var s := Decide(s1, 2, Plainly(A, Client(2), Absent), Finite(5000), Clock(100));
      s.t.locks == map[A := QUEUED] && s.lockCounts == 2 && s.closed == {} && s.lockExpiresAfter == s1.lockExpiresAfter
  {
    assert Holders(s1.t, A).Keys == {Client(1)} && |Holders(s1.t, A)| == 1;
    var t := JoinQueue(s1.t, 2, Plainly(A, Client(2), Absent), Finite(5000));
    assert t.locks[A] == QUEUED;
  }

  lemma StepDecides(s: State, ws: Ws, req: LockReq, env: Env, s1: State, s2: State)
    requires ws !in s.closed && !BadMax(req.max) && s1 == Register(s, ws, req, env) && req.key in s1.t.locks
    requires s2 == s1.(t := SetMax(s1.t, req.key, req.max))
    ensures Step(s, LockEvent(ws, req), env) == Decide(s2, ws, req, SingleTtl(s, req.ttl), env)
  {}

  lemma RaisedMax(s1: State, s2: State)
    requires s1.t.locks == map[A := QUEUED] && s2 == s1.(t := SetMax(s1.t, A, Int(3)))
    ensures s2.t.locks == map[A := QUEUED.(max := 3, maxEver := 3)]
  {}

  lemma RaisingLock(s: State, req: LockReq)
    requires s.t.locks == map[A := QUEUED] && s.lockCounts == 2 && s.closed == {} && s.lockExpiresAfter == 5000
    requires req == Plainly(A, Client(3), Int(3))
    ensures var s' := Step(s, LockEvent(1, req), Clock(100));
      |Holders(s'.t, A)| == 2 && MaxOf(s'.t, A) == 3 && |Queue(s'.t, A)| == 1
  {
    var s1 := Register(s, 1, req, Clock(100));
    var s2 := s1.(t := SetMax(s1.t, A, req.max));
    RegisteredSecond(s, req, s1);
    RaisedMax(s1, s2);
    StepDecides(s, 1, req, Clock(100), s1, s2);
    RaisedGrants(s2, req, Step(s, LockEvent(1, req), Clock(100)));
  }

  lemma RegisteredSecond(s: State, req: LockReq, s1: State)
    requires s.t.locks == map[A := QUEUED] && s.lockCounts == 2 && req.key == A && s1 == Register(s, 1, req, Clock(100))
    ensures s1.t.locks == s.t.locks
  {}

  lemma RaisedGrants(s2: State, req: LockReq, s': State)
    requires s2.t.locks == map[A := QUEUED.(max := 3, maxEver := 3)] && req.key == A && req.uuid == Client(3)
    requires s' == Decide(s2, 1, req, Finite(5000), Clock(100))
    ensures |Holders(s'.t, A)| == 2 && MaxOf(s'.t, A) == 3 && |Queue(s'.t, A)| == 1
  {
    assert Holders(s2.t, A).Keys == {Client(1)} && |Holders(s2.t, A)| == |Holders(s2.t, A).Keys|;
    assert Holders(s'.t, A).Keys == {Client(1), Client(3)} && |Holders(s'.t, A)| == |Holders(s'.t, A).Keys|;
  }

  /** Raising a queued key's `max` by two at once: the caller takes one slot, and the other stays
      free although somebody waits. */
  lemma RaiseLosesWakeup()
    ensures var s := Run(EMPTY, [FIRST_LOCK, SECOND_LOCK, RAISING_LOCK]);
      |Holders(s.t, A)| == 2 && MaxOf(s.t, A) == 3 && |Queue(s.t, A)| == 1
  {
    var s2 := Step(ONE_HOLDER, SECOND_LOCK.event, SECOND_LOCK.env);
    var s3 := Step(s2, RAISING_LOCK.event, RAISING_LOCK.env);
    FirstLock();
    SecondLock();
    RaisingLock(s2, RAISING_LOCK.event.lock);
    RunThree(EMPTY, FIRST_LOCK, SECOND_LOCK, RAISING_LOCK);
  }

  lemma RunThree(s: State, i1: Input, i2: Input, i3: Input)
    ensures Run(s, [i1, i2, i3]) ==
      Step(Step(Step(s, i1.event, i1.env), i2.event, i2.env), i3.event, i3.env)
  {
    var s1 := Step(s, i1.event, i1.env);
    var s2 := Step(s1, i2.event, i2.env);
    assert [i1, i2, i3][1..] == [i2, i3] && [i2, i3][1..] == [i3] && [i3][1..] == [];
    assert Run(s2, [i3]) == Run(Step(s2, i3.event, i3.env), []);
    assert Run(s1, [i2, i3]) == Run(s2, [i3]);
  }

  // ----- A clock read key by key -----

  /** The clock moves on between the two grants of one multi-key request. */
  const TICKING := Env(100, (u: Uuid) => if u == Minted(1) then 100 else 101, {1})
  const BOTH_KEYS := ManyReq(Client(1), Entries([Str(A), Str(B)]), MillisTtl(10), true)
  const MEMBERS: map<Key, Uuid> := map[A := Minted(1), B := Minted(2)]

  lemma BothKeys()
    ensures Before(A.name, B.name) && !Before(B.name, A.name)
    ensures SortedKeys([Str(A), Str(B)]) == [A, B]
  {
    assert SortedKeys([]) == [];
    assert [Str(A), Str(B)][1..] == [Str(B)] && [Str(B)][1..] == [];
    assert SortedKeys([Str(B)]) == InsertKey(B, []) == [B];
    assert InsertKey(A, [B]) == [A, B];
  }

  /** The table after A and B were granted to one composite, at the two readings of the clock. */
  ghost predicate BothGranted(t: Table) {
    && t.locks.Keys == {A, B}
    && Holders(t, A).Keys == {Minted(1)} && Holders(t, A)[Minted(1)].expiresAt == Finite(110)
    && Holders(t, B).Keys == {Minted(2)} && Holders(t, B)[Minted(2)].expiresAt == Finite(111)
    && Queue(t, A) == [] && Queue(t, B) == []
    && t.deadlines == map[Minted(1) := Row(A, 110), Minted(2) := Row(B, 111)]
  }

  lemma TryPair(t: Table, ws: Ws, ttl: Millis, c: Uuid, env: Env)
    requires Holders(t, A) == map[] && B !in t.locks
    ensures var t1 := GrantMember(t, A, ws, ttl, c, env);
      var a := TryKeys(t, [A, B], ws, ttl, c, env);
      && a.t == GrantMember(t1, B, ws, ttl, c, env) && a.contended.None?
      && a.us == map[A := Minted(t.minted), B := Minted(t.minted + 1)]
  {
    var t1 := GrantMember(t, A, ws, ttl, c, env);
    var t2 := GrantMember(t1, B, ws, ttl, c, env);
    assert Holders(t1, B) == map[] && t1.minted == t.minted + 1;
    TryOne(t1, B, ws, ttl, c, env);
    TryFirst(t, t1, ws, ttl, c, env, TryKeys(t1, [B], ws, ttl, c, env));
  }

  lemma TryFirst(t: Table, t1: Table, ws: Ws, ttl: Millis, c: Uuid, env: Env, b: Attempt)
    requires Holders(t, A) == map[] && t1 == GrantMember(t, A, ws, ttl, c, env)
    requires b == TryKeys(t1, [B], ws, ttl, c, env)
    ensures var a := TryKeys(t, [A, B], ws, ttl, c, env);
      a.t == b.t && a.contended == b.contended && a.us == b.us[A := Minted(t.minted)]
  {
    assert [A, B][1..] == [B];
  }

  lemma TryOne(t: Table, k: Key, ws: Ws, ttl: Millis, c: Uuid, env: Env)
    requires Holders(t, k) == map[]
    ensures var a := TryKeys(t, [k], ws, ttl, c, env);
      a.t == GrantMember(t, k, ws, ttl, c, env) && a.contended.None? && a.us == map[k := Minted(t.minted)]
  {
    var t1 := GrantMember(t, k, ws, ttl, c, env);
    assert [k][1..] == [];
    assert TryKeys(t1, [], ws, ttl, c, env) == Attempt(t1, 0, map[], map[], None);
  }

  lemma TryBoth()
    ensures var a := TryKeys(EMPTY.t.(minted := 1), [A, B], 1, Finite(10), Minted(0), TICKING);
      BothGranted(a.t) && a.contended.None? && a.us == MEMBERS
  {
    var t0 := EMPTY.t.(minted := 1);
    TryPair(t0, 1, Finite(10), Minted(0), TICKING);
    MembersBoth(t0, GrantMember(t0, A, 1, Finite(10), Minted(0), TICKING));
  }

  lemma MembersBoth(t0: Table, t1: Table)
    requires t0.locks == map[] && t0.deadlines == map[] && t0.minted == 1
    requires t1 == GrantMember(t0, A, 1, Finite(10), Minted(0), TICKING)
    ensures BothGranted(GrantMember(t1, B, 1, Finite(10), Minted(0), TICKING))
  {
    assert t1.locks.Keys == {A} && t1.minted == 2 && t1.deadlines == map[Minted(1) := Row(A, 110)];
    assert Holders(t1, A).Keys == {Minted(1)} && Holders(t1, A)[Minted(1)].expiresAt == Finite(110);
    var t2 := GrantMember(t1, B, 1, Finite(10), Minted(0), TICKING);
    assert t2.locks.Keys == {A, B} && t2.locks[A] == t1.locks[A];
    assert t2.deadlines == map[Minted(1) := Row(A, 110), Minted(2) := Row(B, 111)];
  }

  ghost predicate BothRegistered(s: State) {
    && BothGranted(s.t) && s.closed == {}
    && Minted(0) in s.composites && s.composites[Minted(0)].holderUuids == MEMBERS
  }

  lemma AnnounceBoth(s: State, w: Waiter, a: Attempt)
    requires w.composite == Some(CompositeAsk([A, B], Minted(0))) && BothGranted(a.t)
    requires a.us == MEMBERS && s.closed == {}
    ensures BothRegistered(Announce(s, w, a, TICKING))
  {}

  lemma AskBoth(s: State, w: Waiter)
    requires s.t == EMPTY.t.(minted := 1) && s.closed == {} && Distinct([A, B])
    requires w == Waiter(1, Client(1), Finite(10), Some(CompositeAsk([A, B], Minted(0))))
    ensures BothRegistered(AskMany(s, w, true, TICKING))
  {
    TryBoth();
    AnnounceBoth(s, w, TryAll(s.t, w, TICKING));
  }

  lemma AcquireAsks(s: State, ws: Ws, req: ManyReq, env: Env, ks: KeyList)
    requires ws !in s.closed && !BadKeys(req.keys) && RequestedKeys(req.keys.entries) == ks
    ensures Step(s, AcquireEvent(ws, req), env) ==
      AskMany(DrawOne(s), Waiter(ws, req.uuid, ManyTtl(s, req.ttl), Some(CompositeAsk(ks, Minted(s.t.minted)))),
           req.wait, env)
  {}

  lemma SweepOne(s: State, now: int, row: (Uuid, Key), env: Env)
    ensures Step(s, TickEvent(now, [row]), env) == Evict(s, row.0, row.1, env)
  {
    assert [row][1..] == [];
    assert Sweep(s, [row], env) == Sweep(Evict(s, row.0, row.1, env), [], env);
  }

  lemma KeysBoth()
    ensures !BadKeys(BOTH_KEYS.keys) && Distinct([A, B]) && RequestedKeys(BOTH_KEYS.keys.entries) == [A, B]
  {
    BothKeys();
  }

  lemma AskedBoth(s: State, w: Waiter, s': State)
    requires s.t == EMPTY.t.(minted := 1) && s.closed == {} && Distinct([A, B])
    requires w == Waiter(1, Client(1), Finite(10), Some(CompositeAsk([A, B], Minted(0))))
    requires s' == AskMany(s, w, true, TICKING)
    ensures BothRegistered(s')
  {
    AskBoth(s, w);
  }

  lemma AcquireBoth()
    ensures BothRegistered(Step(EMPTY, AcquireEvent(1, BOTH_KEYS), TICKING))
  {
    KeysBoth();
    AcquireFrom(EMPTY, Step(EMPTY, AcquireEvent(1, BOTH_KEYS), TICKING), BOTH_KEYS);
  }

  lemma AcquireFrom(s: State, s': State, req: ManyReq)
    requires s.t == EMPTY.t && s.closed == {} && s.lockExpiresAfter == 5000
    requires req.uuid == Client(1) && req.wait && req.ttl == MillisTtl(10)
    requires !BadKeys(req.keys) && Distinct([A, B]) && RequestedKeys(req.keys.entries) == [A, B]
    requires s' == Step(s, AcquireEvent(1, req), TICKING)
    ensures BothRegistered(s')
  {
    AcquireAsks(s, 1, req, TICKING, [A, B]);
    AskedBoth(DrawOne(s), Waiter(1, Client(1), Finite(10), Some(CompositeAsk([A, B], Minted(0)))), s');
  }

  const EXPIRED: seq<(Uuid, Key)> := [(Minted(1), A)]

  lemma SweepFirst(s: State)
    requires BothRegistered(s)
    ensures var s' := Step(s, TickEvent(110, EXPIRED), Clock(110));
      ExpiredRows(s.t, 110, EXPIRED) && Member(s', Minted(0), A, Minted(1)) && Member(s', Minted(0), B, Minted(2))
      && Minted(1) !in Holders(s'.t, A) && Minted(2) in Holders(s'.t, B)
  {
    forall u, k
      ensures (u, k) in EXPIRED <==>
        u in s.t.deadlines && s.t.deadlines[u].key == k && s.t.deadlines[u].expiresAt <= 110
    {
      assert EXPIRED[0] == (Minted(1), A);
    }
    EvictFirst(s);
    SweepOne(s, 110, (Minted(1), A), Clock(110));
  }

  lemma EvictFirst(s: State)
    requires BothRegistered(s)
    ensures var s' := Evict(s, Minted(1), A, Clock(110));
      && s'.composites == s.composites && Minted(1) !in Holders(s'.t, A) && Minted(2) in Holders(s'.t, B)
  {
    var t1 := TimeOut(DropRow(s.t, Minted(1)), A, Minted(1));
    assert Holders(t1, A).Keys == {} && Holders(t1, A) == map[];
  }

  /** A sweep between the two deadlines: the composite keeps one of its keys. */
  lemma ClockSplitsComposite()
    ensures var s :=
        Run(EMPTY, [Input(AcquireEvent(1, BOTH_KEYS), TICKING), Input(TickEvent(110, EXPIRED), Clock(110))]);
      !AllOrNone(s)
  {
    var s1 := Step(EMPTY, AcquireEvent(1, BOTH_KEYS), TICKING);
    AcquireBoth();
    SweepFirst(s1);
    RunTwo(EMPTY, Input(AcquireEvent(1, BOTH_KEYS), TICKING), Input(TickEvent(110, EXPIRED), Clock(110)));
    assert !Whole(Step(s1, TickEvent(110, EXPIRED), Clock(110)), Minted(0));
  }

  lemma RunTwo(s: State, i1: Input, i2: Input)
    ensures Run(s, [i1, i2]) == Step(Step(s, i1.event, i1.env), i2.event, i2.env)
  {
    var s1 := Step(s, i1.event, i1.env);
    assert [i1, i2][1..] == [i2] && [i2][1..] == [];
    assert Run(s1, [i2]) == Run(Step(s1, i2.event, i2.env), []);
  }

  // ----- A socket that closes with a composite queued -----

  const ASKING: Waiter := Waiter(1, Client(1), Finite(10), Some(CompositeAsk([A, B], Minted(0))))
  const CLOSED := Env(200, (u: Uuid) => 200, {})

  /** Socket 1 holds A and waits there for A and B together. */
  ghost predicate HoldsAndWaits(s: State) {
    && s.t.locks.Keys == {A} && Holders(s.t, A).Keys == {Client(1)} && Holders(s.t, A)[Client(1)].ws == 1
    && Queue(s.t, A) == [ASKING.(uuid := Client(2))] && MaxOf(s.t, A) == 1
    && s.composites == map[] && s.t.minted == 1
  }

  /** Socket 1 has been granted A and B under composite 0. */
  ghost predicate HoldsBoth(s: State) {
    && s.t.locks.Keys == {A, B}
    && Holders(s.t, A).Keys == {Minted(1)}
    && Holders(s.t, B).Keys == {Minted(2)} && Holders(s.t, B)[Minted(2)].ws == 1
    && Queue(s.t, A) == [] && Queue(s.t, B) == []
    && Minted(0) in s.composites && s.composites[Minted(0)].holderUuids == MEMBERS
  }

  /** Freeing A while its only waiter is the composite. */
  lemma ServesBoth(s: State)
    requires s.t.locks.Keys == {A} && Holders(s.t, A) == map[] && MaxOf(s.t, A) == 1 && s.t.minted == 1
    requires Distinct([A, B]) && Queue(s.t, A) == [ASKING.(uuid := Client(2))]
    ensures HoldsBoth(Drain(s, A, CLOSED))
  {
    var w := ASKING.(uuid := Client(2));
    var s1 := s.(t := SetQueue(s.t, A, []));
    assert NextWaiter(Queue(s.t, A), CLOSED.live) == (w, []);
    TryPair(s1.t, 1, Finite(10), Minted(0), CLOSED);
    AnnouncesBoth(s1, w, TryAll(s1.t, w, CLOSED));
    assert ServeNext(s, A, CLOSED) == Announce(s1, w, TryAll(s1.t, w, CLOSED), CLOSED);
  }

  lemma AnnouncesBoth(s: State, w: Waiter, a: Attempt)
    requires Holders(s.t, A) == map[] && s.t.locks.Keys == {A} && s.t.minted == 1 && Queue(s.t, A) == []
    requires w.composite == Some(CompositeAsk([A, B], Minted(0))) && w.ws == 1
    requires a.us == MEMBERS
    requires a.t == GrantMember(GrantMember(s.t, A, 1, w.ttl, Minted(0), CLOSED), B, 1, w.ttl, Minted(0), CLOSED)
    ensures HoldsBoth(Announce(s, w, a, CLOSED))
  {
    var t1 := GrantMember(s.t, A, 1, w.ttl, Minted(0), CLOSED);
    assert Holders(t1, A).Keys == {Minted(1)} && t1.locks.Keys == {A} && t1.minted == 2;
    assert Holders(a.t, B).Keys == {Minted(2)};
  }

  lemma ScrubsA(s: State)
    requires HoldsAndWaits(s) && 1 !in s.wsUuids && Distinct([A, B])
    ensures HoldsBoth(ScrubKey(s, A, {Client(1)}, [Client(1)], 1, CLOSED))
  {
    var t1 := ScrubQueue(s.t, A, {Client(1)}, 1);
    var w := ASKING.(uuid := Client(2));
    assert Queue(t1, A) == [w] by {
      assert [w][1..] == [];
      assert RemoveAll([w], {Client(1)}) == [w] + RemoveAll([], {Client(1)});
    }
    UnlocksA(s.(t := t1));
    UnlockOwnedOne(s.(t := t1), A, Client(1), 1, CLOSED);
  }

  lemma UnlockOwnedOne(s: State, k: Key, u: Uuid, ws: Ws, env: Env)
    ensures UnlockOwned(s, k, [u], ws, env) == Unlock(s, Some(ws), UnlockReq(k, None, Some(u), true), env)
  {
    assert [u][1..] == [];
    var s1 := Unlock(s, Some(ws), UnlockReq(k, None, Some(u), true), env);
    assert UnlockOwned(s1, k, [], ws, env) == s1;
  }

  lemma UnlocksA(s: State)
    requires HoldsAndWaits(s) && 1 !in s.wsUuids && Distinct([A, B])
    ensures HoldsBoth(Unlock(s, Some(1), UnlockReq(A, None, Some(Client(1)), true), CLOSED))
  {
    var t1 := DropGone(Release(s.t, A, Client(1)), A, Some(Client(1)));
    assert Holders(t1, A).Keys == {} && Holders(t1, A) == map[];
    ServesBoth(s.(t := t1));
    UnlockDrains(s, A, Client(1), 1, CLOSED);
  }

  /** An unlock by a closing socket, of a holder it has, on a key somebody waits for. */
  lemma UnlockDrains(s: State, k: Key, u: Uuid, ws: Ws, env: Env)
    requires u in Holders(s.t, k) && Queue(s.t, k) != [] && ws !in s.wsUuids
    ensures Unlock(s, Some(ws), UnlockReq(k, None, Some(u), true), env) ==
      Drain(s.(t := DropGone(Release(s.t, k, u), k, Some(u))), k, env)
  {}

  lemma ScrubsB(s: State)
    requires HoldsBoth(s) && 1 !in s.wsUuids
    ensures var s' := ScrubKey(s, B, {Client(1)}, [Minted(2)], 1, CLOSED);
      && s'.t.locks.Keys == {A, B} && s'.composites == s.composites
      && Minted(1) in Holders(s'.t, A) && Minted(2) !in Holders(s'.t, B)
  {
    var t1 := ScrubQueue(s.t, B, {Client(1)}, 1);
    UnlockOwnedOne(s.(t := t1), B, Minted(2), 1, CLOSED);
    var t2 := DropGone(Release(t1, B, Minted(2)), B, Some(Minted(2)));
    assert Holders(t2, B).Keys == {} && Holders(t2, B) == map[];
  }

  lemma VisitTwo(s: State, v1: (Key, seq<Uuid>), v2: (Key, seq<Uuid>), uuids: set<Uuid>, ws: Ws, env: Env, s1: State,
                 s2: State)
    requires v1.0 in s.t.locks && s1 == ScrubKey(s, v1.0, uuids, v1.1, ws, env)
    requires v2.0 in s1.t.locks && s2 == ScrubKey(s1, v2.0, uuids, v2.1, ws, env) && v1.0 != v2.0
    requires Lists(v1.1, Owned(s.t, v1.0, ws)) && Lists(v2.1, Owned(s1.t, v2.0, ws)) && s2.t.locks.Keys <= {v1.0, v2.0}
    ensures FullVisit(s, [v1, v2], {}, uuids, ws, env)
    ensures ScrubKeys(s, [v1, v2], uuids, ws, env) == s2
  {
    assert [v1, v2][1..] == [v2] && [v2][1..] == [];
    assert FullVisit(s2, [], {v1.0} + {v2.0}, uuids, ws, env);
    assert FullVisit(s1, [v2], {v1.0}, uuids, ws, env);
    assert ScrubKeys(s1, [v2], uuids, ws, env) == ScrubKeys(s2, [], uuids, ws, env);
  }

  const VISITS: Visits := [(A, [Client(1)]), (B, [Minted(2)])]

  const ASK_BOTH := BOTH_KEYS.(uuid := Client(2))

  /** The holder of A asks for A and B together, and waits. */
  lemma WaitsForBoth()
    ensures var s := Step(ONE_HOLDER, AcquireEvent(1, ASK_BOTH), Clock(100));
      HoldsAndWaits(s) && s.closed == {} && s.wsUuids == map[1 := {Client(1)}]
  {
    BothKeys();
    KeysBoth();
    AcquireAsks(ONE_HOLDER, 1, ASK_BOTH, Clock(100), [A, B]);
    StoppedAtA(DrawOne(ONE_HOLDER), AskMany(DrawOne(ONE_HOLDER), ASKING.(uuid := Client(2)), true, Clock(100)));
  }

  lemma StoppedAtA(s: State, s': State)
    requires s == DrawOne(ONE_HOLDER) && Distinct([A, B])
    requires s' == AskMany(s, ASKING.(uuid := Client(2)), true, Clock(100))
    ensures HoldsAndWaits(s') && s'.closed == {} && s'.wsUuids == map[1 := {Client(1)}]
  {
    var w := ASKING.(uuid := Client(2));
    assert Holders(s.t, A).Keys == {Client(1)} && |Holders(s.t, A)| == |Holders(s.t, A).Keys|;
    assert [A, B][1..] == [B] && [B][1..] == [];
    assert Rollback(s.t, [B], map[]) == Rollback(s.t, [], map[]);
    assert TryAll(s.t, w, Clock(100)) == Attempt(s.t, 0, map[], map[], Some(A));
    assert !Contains(Queue(s.t, A), w.uuid);
  }

  /** Closing frees A, which grants the socket's own composite A and B after A was visited; then B
      is visited and freed. The composite keeps A, for a socket that is gone. */
  lemma CloseSplitsComposite(s: State)
    requires HoldsAndWaits(s) && s.closed == {} && s.wsUuids == map[1 := {Client(1)}]
    ensures FullVisit(Unplugged(s, 1), VISITS, {}, Leaving(s, 1), 1, CLOSED)
    ensures !AllOrNone(Step(s, CloseEvent(1, VISITS), CLOSED))
  {
    var s0 := Unplugged(s, 1);
    assert 1 !in s0.wsUuids;
    VisitsSplit(s0, ScrubKey(s0, A, {Client(1)}, [Client(1)], 1, CLOSED));
    CloseScrubs(s, 1, VISITS, CLOSED);
  }

  lemma CloseScrubs(s: State, ws: Ws, visits: Visits, env: Env)
    requires ws !in s.closed
    ensures Step(s, CloseEvent(ws, visits), env) == ScrubKeys(Unplugged(s, ws), visits, Leaving(s, ws), ws, env)
  {}

  lemma VisitsSplit(s0: State, s1: State)
    requires HoldsAndWaits(s0) && 1 !in s0.wsUuids && s1 == ScrubKey(s0, A, {Client(1)}, [Client(1)], 1, CLOSED)
    ensures FullVisit(s0, VISITS, {}, {Client(1)}, 1, CLOSED)
    ensures !AllOrNone(ScrubKeys(s0, VISITS, {Client(1)}, 1, CLOSED))
  {
    BothKeys();
    KeysBoth();
    ScrubsA(s0);
    UnlockOwnedRecords(s0.(t := ScrubQueue(s0.t, A, {Client(1)}, 1)), A, [Client(1)], 1, CLOSED);
    SecondVisit(s0, s1, ScrubKey(s1, B, {Client(1)}, [Minted(2)], 1, CLOSED));
  }

  lemma SecondVisit(s0: State, s1: State, s2: State)
    requires HoldsAndWaits(s0) && HoldsBoth(s1) && 1 !in s1.wsUuids
    requires s1 == ScrubKey(s0, A, {Client(1)}, [Client(1)], 1, CLOSED)
    requires s2 == ScrubKey(s1, B, {Client(1)}, [Minted(2)], 1, CLOSED)
    ensures FullVisit(s0, VISITS, {}, {Client(1)}, 1, CLOSED)
    ensures !AllOrNone(ScrubKeys(s0, VISITS, {Client(1)}, 1, CLOSED))
  {
    ScrubsB(s1);
    assert Owned(s0.t, A, 1) == {Client(1)} && Owned(s1.t, B, 1) == {Minted(2)};
    VisitTwo(s0, VISITS[0], VISITS[1], {Client(1)}, 1, CLOSED, s1, s2);
    KeepsOneKey(s2);
  }

  lemma KeepsOneKey(s: State)
    requires Minted(0) in s.composites && s.composites[Minted(0)].holderUuids == MEMBERS
    requires Minted(1) in Holders(s.t, A) && Minted(2) !in Holders(s.t, B)
    ensures !AllOrNone(s)
  {
    assert Member(s, Minted(0), A, Minted(1)) && Member(s, Minted(0), B, Minted(2));
  }

  // ----- A key deleted and made again -----

  const FIRST_ROW: seq<(Uuid, Key)> := [(Client(1), A)]

  function LockB(u: ClientUuid): Input {
    Input(LockEvent(1, Plainly(B, u, Absent)), Clock(8000))
  }

  /** A is swept at 5100; the third lock request for B, at 8000, is the fourth of all. */
  const SWEEP_A := Input(TickEvent(5100, FIRST_ROW), Clock(5100))
  const LOCKS_B := [LockB(Client(3)), LockB(Client(4)), LockB(Client(5))]

  function LockAgain(now: int): Input {
    Input(LockEvent(2, Plainly(A, Client(2), Absent)), Clock(now))
  }

  /** A is idle since 5100, three lock requests short of being deleted. */
  ghost predicate Abandoned(s: State, lockCounts: nat) {
    && A in s.t.locks && s.lockCounts == lockCounts && s.closed == {} && !s.t.fence.hardened
    && s.t.locks[A] == LockObj(1, 1, 101, map[], [], {Client(1)}, {}, Some(5100))
  }

  lemma SweepsA()
    ensures ExpiredRows(ONE_HOLDER.t, 5100, FIRST_ROW)
    ensures Abandoned(Step(ONE_HOLDER, SWEEP_A.event, SWEEP_A.env), 1)
  {
    forall u, k
      ensures (u, k) in FIRST_ROW <==>
        u in ONE_HOLDER.t.deadlines && ONE_HOLDER.t.deadlines[u].key == k && ONE_HOLDER.t.deadlines[u].expiresAt <= 5100
    {
      assert FIRST_ROW[0] == (Client(1), A);
    }
    SweepOne(ONE_HOLDER, 5100, (Client(1), A), Clock(5100));
    var t1 := TimeOut(DropRow(ONE_HOLDER.t, Client(1)), A, Client(1));
    var t2 := DropGone(t1, A, Some(Client(1)));
    assert Holders(t2, A).Keys == {} && Holders(t2, A) == map[] && t2.locks[A].timedOut == {Client(1)};
  }

  /** Somebody else asks for B. */
  ghost predicate AsksB(i: Input) {
    i.event.LockEvent? && i.event.lock.uuid != Client(1) && i == LockB(i.event.lock.uuid)
  }

  /** A lock request for another key, with no cleanup due. */
  lemma LockElsewhere(s: State, i: Input, n: nat)
    requires Abandoned(s, n) && n < 3 && AsksB(i)
    ensures Abandoned(Step(s, i.event, i.env), n + 1)
  {
    LockBElsewhere(s, i.event.lock.uuid, n);
  }

  lemma LockBElsewhere(s: State, u: ClientUuid, n: nat)
    requires Abandoned(s, n) && n < 3
    ensures Abandoned(Step(s, LockB(u).event, LockB(u).env), n + 1)
  {
    var req, env := Plainly(B, u, Absent), Clock(8000);
    var s1 := Register(s, 1, req, env);
    assert Abandoned(s1, n + 1);
    if B in s1.t.locks {
      DecideAbandons(s1, u, n + 1);
    } else {
      GrantAbandons(s1.(t := Materialize(s1.t, B, 1, env)), u, n + 1);
    }
  }

  lemma DecideAbandons(s: State, u: ClientUuid, n: nat)
    requires Abandoned(s, n) && B in s.t.locks
    ensures Abandoned(Decide(s, 1, Plainly(B, u, Absent), Finite(s.lockExpiresAfter), Clock(8000)), n)
  {
    if !Full(s.t, B) { GrantAbandons(s, u, n); }
  }

  lemma GrantAbandons(s: State, u: ClientUuid, n: nat)
    requires Abandoned(s, n) && B in s.t.locks
    ensures Abandoned(GrantNow(s, 1, Plainly(B, u, Absent), Finite(s.lockExpiresAfter), Clock(8000)), n)
  {}

  /** `locks` are lock requests of others, which delete A's lock object. */
  ghost predicate DeletesA(s: State, locks: seq<Input>) {
    && (forall i :: 0 <= i < |locks| ==> locks[i].event.LockEvent? && locks[i].event.lock.uuid != Client(1))
    && Deletes(s, locks, A) && A !in Run(s, locks).t.locks && Run(s, locks).closed == {}
  }

  lemma DeletesAfter(s: State, s1: State, locks: seq<Input>)
    requires locks != [] && s1 == Step(s, locks[0].event, locks[0].env)
    requires locks[0].event.LockEvent? && locks[0].event.lock.uuid != Client(1)
    requires DeletesA(s1, locks[1..]) ||
      (Forgets(s, locks[0].event, locks[0].env, A) && locks[1..] == [] && A !in s1.t.locks && s1.closed == {})
    ensures DeletesA(s, locks)
  {
    assert Run(s, locks) == Run(s1, locks[1..]);
    assert forall i :: 0 < i < |locks| ==> locks[i] == locks[1..][i - 1];
  }

  /** Requests for B up to the one that deletes A's lock object. */
  lemma {:induction false} LocksDelete(s: State, locks: seq<Input>, n: nat)
    requires Abandoned(s, n) && |locks| + n == 4 && n <= 3 && forall i :: 0 <= i < |locks| ==> AsksB(locks[i])
    ensures DeletesA(s, locks)
    decreases |locks|
  {
    var s1 := Step(s, locks[0].event, locks[0].env);
    if n == 3 {
      LastForgets(s, locks[0], s1);
    } else {
      LockElsewhere(s, locks[0], n);
      LocksDelete(s1, locks[1..], n + 1);
    }
    DeletesAfter(s, s1, locks);
  }

  lemma LastForgets(s: State, i: Input, s': State)
    requires Abandoned(s, 3) && AsksB(i) && s' == Step(s, i.event, i.env)
    ensures Forgets(s, i.event, i.env, A) && A !in s'.t.locks && s'.closed == {}
  {
    assert Idle(s.t.locks[A], 8000);
    StepRecalls(s, i.event, i.env, A, Client(1));
    LockClosesNobody(s, i.event, i.env);
  }

  /** What happens to A before it is asked for again. */
  lemma {:induction false} RunTwice(s: State, a: seq<Input>, b: seq<Input>)
    ensures Run(s, a + b) == Run(Run(s, a), b)
    decreases |a|
  {
    if a == [] {
      assert a + b == b;
    } else {
      assert (a + b)[0] == a[0] && (a + b)[1..] == a[1..] + b;
      RunTwice(Step(s, a[0].event, a[0].env), a[1..], b);
    }
  }

  lemma {:induction false} DeletesLater(s: State, a: seq<Input>, b: seq<Input>, k: Key)
    requires Deletes(s, a, k)
    ensures Deletes(s, a + b, k)
    decreases |a|
  {
    assert (a + b)[0] == a[0] && (a + b)[1..] == a[1..] + b;
    if !Forgets(s, a[0].event, a[0].env, k) { DeletesLater(Step(s, a[0].event, a[0].env), a[1..], b, k); }
  }

  lemma {:induction false} OnlyLocks(s: State, ins: seq<Input>, k: Key, u: Uuid)
    requires forall i :: 0 <= i < |ins| ==> ins[i].event.LockEvent? && ins[i].event.lock.uuid != u
    ensures Unclaimed(s, ins, k, u) && Unasked(s, ins, k, u)
    decreases |ins|
  {
    if ins != [] { OnlyLocks(Step(s, ins[0].event, ins[0].env), ins[1..], k, u); }
  }

  lemma MadeAgain(s: State, now: int)
    requires A !in s.t.locks && s.closed == {}
    ensures A in Run(s, [LockAgain(now)]).t.locks
  {
    var i := LockAgain(now);
    assert [i][1..] == [];
    assert Run(s, [i]) == Run(Step(s, i.event, i.env), []);
    LockKeys(s, 2, i.event.lock, i.env);
  }

  lemma LockClosesNobody(s: State, e: Event, env: Env)
    requires e.LockEvent?
    ensures Step(s, e, env).closed == s.closed
  {
    if !Dropped(s, e) { LockRecords(s, e.ws, e.lock, env); }
  }

  /** The late unlock of the evicted holder of A is told that it did not unlock. */
  ghost predicate ToldNo(s: State, env: Env) {
    Told(s, Unlock(s, Some(2), UnlockReq(A, Some(Client(6)), Some(Client(1)), false), env), 2, Client(6), A, false)
  }

  lemma ForgottenIn(s: State, ins: seq<Input>, env: Env)
    requires Late(s.t, A, Client(1)) && Deletes(s, ins, A) && A in Run(s, ins).t.locks && 2 in env.live
    requires forall i :: 0 <= i < |ins| ==> ins[i].event.LockEvent? && ins[i].event.lock.uuid != Client(1)
    ensures ToldNo(Run(s, ins), env)
  {
    OnlyLocks(s, ins, A, Client(1));
    LateUnlockTold(s, ins, A, Client(1), 2, Client(6), env);
  }

  /** A, deleted by `locks`, is made again by one more lock request. */
  lemma MadeAgainBy(s: State, s2: State, locks: seq<Input>, again: seq<Input>, now: int)
    requires s2 == Run(s, locks) && A !in s2.t.locks && s2.closed == {} && again == [LockAgain(now)]
    ensures A in Run(s, locks + again).t.locks
  {
    RunTwice(s, locks, again);
    MadeAgain(s2, now);
  }

  lemma SweptState()
    ensures Run(EMPTY, [FIRST_LOCK, SWEEP_A]) == Step(ONE_HOLDER, SWEEP_A.event, SWEEP_A.env)
    ensures Abandoned(Run(EMPTY, [FIRST_LOCK, SWEEP_A]), 1)
  {
    FirstLock();
    SweepsA();
    RunTwo(EMPTY, FIRST_LOCK, SWEEP_A);
  }

  lemma AbandonedLate(s: State, n: nat)
    requires Abandoned(s, n)
    ensures Late(s.t, A, Client(1)) && s.closed == {}
  {}

  lemma ForgottenBy(s: State, locks: seq<Input>, again: seq<Input>, now: int)
    requires Late(s.t, A, Client(1)) && DeletesA(s, locks) && again == [LockAgain(now)]
    ensures ToldNo(Run(s, locks + again), Clock(now))
  {
    DeletesLater(s, locks, again, A);
    MadeAgainBy(s, Run(s, locks), locks, again, now);
    ForgottenIn(s, locks + again, Clock(now));
  }

  /** The holder of A is evicted; A, idle, is deleted and made again; and the late unlock of the evicted
      hold, the first there is, is told that it did not unlock. */
  lemma LateUnlockForgotten(s1: State, locks: seq<Input>, again: seq<Input>, now: int)
    requires s1 == Run(EMPTY, [FIRST_LOCK, SWEEP_A]) && locks == LOCKS_B && again == [LockAgain(now)]
    ensures ExpiredRows(ONE_HOLDER.t, 5100, FIRST_ROW)
    ensures ToldNo(Run(s1, locks + again), Clock(now))
  {
    SweepsA();
    SweptState();
    AbandonedLate(s1, 1);
    LocksBAsk(locks);
    LocksDelete(s1, locks, 1);
    ForgottenBy(s1, locks, again, now);
  }

  /** A key made anew by a clock behind a token it gave out. */
  lemma MadeByEarlierClock(s: State, token: int, now: int)
    requires Trusted(s) && !s.t.fence.hardened && A !in s.t.locks
    requires s.closed == {} && Mint(A, token) in Log(s.t) && now < token
    ensures !Increasing(Log(Step(s, LockAgain(now).event, LockAgain(now).env).t))
  {
    var req, env := LockAgain(now).event.lock, LockAgain(now).env;
    var s1, s' := Register(s, 2, req, env), Lock(s, 2, req, env);
    LockFollows(s, 2, req, env);
    LockKeys(s, 2, req, env);
    RegisterSheds(s, 2, req, env);
    assert MovesOn(s1.t, s'.t, A, now);
    MadeBehind(s1.t, s'.t, A, now);
  }

  lemma LocksBAsk(locks: seq<Input>)
    requires locks == LOCKS_B
    ensures |locks| == 3 && forall i :: 0 <= i < |locks| ==> AsksB(locks[i])
  {}

  /** The base broker, from its start: an idle key is deleted, then asked for again by a clock that has gone
      back, and gives out a lower token than before. */
  lemma BaseTokensRegress(first: seq<Input>, locks: seq<Input>, again: seq<Input>, now: int)
    requires first == [FIRST_LOCK, SWEEP_A] && locks == LOCKS_B && again == [LockAgain(now)] && now < 101
    ensures !Increasing(Log(Run(EMPTY, first + locks + again).t)) && !AheadThroughout(EMPTY, first + locks + again)
  {
    SweptState();
    SweptTrusted();
    LocksBAsk(locks);
    RegressAfter(Run(EMPTY, first), first, locks, again, now);
  }

  lemma RegressAfter(s1: State, first: seq<Input>, locks: seq<Input>, again: seq<Input>, now: int)
    requires s1 == Run(EMPTY, first) && Abandoned(s1, 1) && Trusted(s1) && Mint(A, 101) in Log(s1.t)
    requires |locks| == 3 && forall i :: 0 <= i < |locks| ==> AsksB(locks[i])
    requires again == [LockAgain(now)] && now < 101
    ensures !Increasing(Log(Run(EMPTY, first + locks + again).t)) && !AheadThroughout(EMPTY, first + locks + again)
  {
    LocksDelete(s1, locks, 1);
    RunHolds(s1, locks);
    RegressesBy(s1, Run(s1, locks), first, locks, again, now);
  }

  lemma RegressesBy(s1: State, s2: State, first: seq<Input>, locks: seq<Input>, again: seq<Input>, now: int)
    requires s1 == Run(EMPTY, first) && s2 == Run(s1, locks) && again == [LockAgain(now)] && now < 101
    requires Trusted(s2) && !s2.t.fence.hardened && A !in s2.t.locks && s2.closed == {} && Mint(A, 101) in Log(s2.t)
    ensures var ins := first + locks + again;
      !Increasing(Log(Run(EMPTY, ins).t)) && !AheadThroughout(EMPTY, ins)
  {
    MadeByEarlierClock(s2, 101, now);
    RunTwice(EMPTY, first, locks);
    RunTwice(EMPTY, first + locks, again);
    RunOne(s2, LockAgain(now));
    BaseTokensGrow(0, 0, 5000, first + locks + again);
  }

  lemma RunOne(s: State, i: Input)
    ensures Run(s, [i]) == Step(s, i.event, i.env)
  {
    assert [i][1..] == [];
    assert Run(s, [i]) == Run(Step(s, i.event, i.env), []);
  }

  lemma SweptTrusted()
    ensures var s := Run(EMPTY, [FIRST_LOCK, SWEEP_A]); Trusted(s) && Mint(A, 101) in Log(s.t)
  {
    FirstLock();
    SweptState();
    StartTrusted(EMPTY.t.fence, 5000);
    StepFollows(EMPTY, FIRST_LOCK.event, FIRST_LOCK.env);
    StepFollows(ONE_HOLDER, SWEEP_A.event, SWEEP_A.env);
    OneMoreNote([], ONE_HOLDER.t.journal[0]);
    assert ONE_HOLDER.t.journal == [] + [ONE_HOLDER.t.journal[0]];
    assert Log(ONE_HOLDER.t)[0] == Mint(A, 101);
    assert Log(Run(EMPTY, [FIRST_LOCK, SWEEP_A]).t)[0] == Mint(A, 101);
  }
}

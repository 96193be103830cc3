/** A run of a hardened broker near its ceiling: the drain passes its gate, and then meets the ceiling
    when it has granted 63 of the 64 keys of a queued request. */
module HalfGrants {
  import opened BrokerTypes
  import opened BrokerSpec
  import opened BrokerSteps
  import opened Orders
  import opened Drains
  import opened Events
  import opened WatermarkText
  import opened Hardened
  import opened Headroom
  import opened Limits

  const TOP: nat := MAX_FENCING_TOKEN - 66

  const NEW := Start(Fence(true, TOP, TOP, None), 5000)

  // ----- The request for 64 keys -----

  function KeyNo(i: nat): Key
    requires i < 64
  {
    if i == 0 then A else Key([66, i])
  }

  function Keys64(): (ks: seq<Key>)
    ensures |ks| == 64 && forall i :: 0 <= i < 64 ==> ks[i] == KeyNo(i)
  {
    seq(64, i requires 0 <= i < 64 => KeyNo(i))
  }

  function Many(): ManyReq {
    ManyReq(Client(4), Entries(seq(64, i requires 0 <= i < 64 => Str(Keys64()[i]))), NoTtl, true)
  }

  lemma KeysSorted()
    ensures Sorted(Keys64())
  {
    forall i, j | 0 <= i < j < 64 ensures Before(Keys64()[i].name, Keys64()[j].name) {
      if i > 0 { assert Before([i], [j]) && [66, i][1..] == [i] && [66, j][1..] == [j]; }
    }
  }

  lemma {:induction false} SortedStays(entries: seq<RawKey>, ks: seq<Key>)
    requires |entries| == |ks| && Sorted(ks) && forall i :: 0 <= i < |ks| ==> entries[i] == Str(ks[i])
    ensures SortedKeys(entries) == ks
  {
    if entries != [] {
      SortedStays(entries[1..], ks[1..]);
      if |ks| > 1 { BeforeTotal(ks[0].name, ks[1].name); }
    }
  }

  lemma SortedRequested(entries: seq<RawKey>, ks: seq<Key>)
    requires 0 < |entries| == |ks| <= 64 && Sorted(ks)
    requires forall i :: 0 <= i < |ks| ==> entries[i] == Str(ks[i]) && ks[i].name != []
    ensures Distinct(ks) && !BadKeys(Entries(entries)) && RequestedKeys(entries) == ks
  {
    SortedStays(entries, ks);
    SortedKeysSorted(entries);
  }

  lemma KeysRequested()
    ensures Distinct(Keys64()) && !BadKeys(Many().keys)
    ensures RequestedKeys(Many().keys.entries) == Keys64()
  {
    KeysSorted();
    SortedRequested(Many().keys.entries, Keys64());
  }

  // ----- Up to the gate -----

  const FIRST := Input(LockEvent(1, Plainly(A, Client(1), Int(2))), Clock(100))
  const SECOND := Input(LockEvent(1, Plainly(A, Client(2), Int(2))), Clock(100))
  const THIRD := Input(LockEvent(2, Plainly(A, Client(3), Int(2))), Clock(100))

  function Fourth(): Input {
    Input(AcquireEvent(2, Many()), Clock(100))
  }

  const SINGLE := Waiter(2, Client(3), Finite(5000), None)

  function Asking(ks: KeyList): Waiter {
    Waiter(2, Client(4), Finite(5000), Some(CompositeAsk(ks, Minted(0))))
  }

  /** A, for two, has so many holders, and so many waiters. */
  ghost predicate Stage(s: State, n: nat, q: seq<Waiter>) {
    && s.closed == {} && s.lockExpiresAfter == 5000 && s.t.fence == Fence(true, TOP, TOP + n, None)
    && s.t.locks.Keys == {A} && MaxOf(s.t, A) == 2 && TokenOf(s.t, A) == TOP + n
    && Queue(s.t, A) == q && |Holders(s.t, A)| == n
  }

  lemma LocksFirst()
    ensures var s := Step(NEW, FIRST.event, FIRST.env);
      Stage(s, 1, []) && s.lockCounts == 1 && s.t.minted == 0 && Client(2) !in Holders(s.t, A)
  {
    var req, env := FIRST.event.lock, Clock(100);
    var s1 := Register(NEW, 1, req, env);
    assert s1.t.locks == map[] && s1.wsUuids[1] == {Client(1)};
    assert s1 == NEW.(lockCounts := 1, wsUuids := map[1 := {Client(1)}]);
    var s2 := s1.(t := Materialize(s1.t, A, 2, env));
    GrantsTo(s2, 1, req, Finite(5000), GrantNow(s2, 1, req, Finite(5000), env), 0);
  }

  lemma GrantsTo(s: State, ws: Ws, req: LockReq, ttl: Millis, s': State, n: nat)
    requires Stage(s, n, []) && req.key == A && req.uuid !in Holders(s.t, A)
    requires s' == GrantNow(s, ws, req, ttl, Clock(100))
    ensures Stage(s', n + 1, []) && s'.lockCounts == s.lockCounts && s'.t.minted == s.t.minted
    ensures Holders(s'.t, A).Keys == Holders(s.t, A).Keys + {req.uuid}
  {
    OneMoreHolder(s.t, Grant(s.t, A, req.uuid, ws, ttl, None, Clock(100)), req.uuid, ws, ttl);
  }

  lemma OneMoreHolder(t: Table, t': Table, u: Uuid, ws: Ws, ttl: Millis)
    requires A in t.locks && u !in Holders(t, A) && t' == Grant(t, A, u, ws, ttl, None, Clock(100))
    ensures Holders(t', A).Keys == Holders(t, A).Keys + {u} && |Holders(t', A)| == |Holders(t, A)| + 1
  {
    assert |Holders(t, A)| == |Holders(t, A).Keys| && |Holders(t', A)| == |Holders(t', A).Keys|;
  }

  /** One more request for A, with the same `max`. */
  lemma AsksForA(s: State, ws: Ws, req: LockReq, n: nat, s2: State)
    requires Stage(s, n, []) && s.lockCounts < 3 && req.key == A && req.max == Int(2) && req.ttl == NoTtl
    requires s2 == Register(s, ws, req, Clock(100)).(t := SetMax(Register(s, ws, req, Clock(100)).t, A, Int(2)))
    ensures Stage(s2, n, []) && s2.lockCounts == s.lockCounts + 1 && s2.t.minted == s.t.minted
    ensures Holders(s2.t, A) == Holders(s.t, A)
    ensures Step(s, LockEvent(ws, req), Clock(100)) == Decide(s2, ws, req, Finite(5000), Clock(100))
  {}

  lemma LocksSecond(s: State)
    requires Stage(s, 1, []) && s.lockCounts == 1 && s.t.minted == 0 && Client(2) !in Holders(s.t, A)
    ensures var s' := Step(s, SECOND.event, SECOND.env); Stage(s', 2, []) && s'.lockCounts == 2 && s'.t.minted == 0
  {
    var req := SECOND.event.lock;
    var s2 := Register(s, 1, req, Clock(100)).(t := SetMax(Register(s, 1, req, Clock(100)).t, A, Int(2)));
    AsksForA(s, 1, req, 1, s2);
    GrantsTo(s2, 1, req, Finite(5000), Decide(s2, 1, req, Finite(5000), Clock(100)), 1);
  }

  lemma QueuesThird(s: State)
    requires Stage(s, 2, []) && s.lockCounts == 2 && s.t.minted == 0
    ensures var s' := Step(s, THIRD.event, THIRD.env); Stage(s', 2, [SINGLE]) && s'.t.minted == 0
  {
    var req := THIRD.event.lock;
    var s2 := Register(s, 2, req, Clock(100)).(t := SetMax(Register(s, 2, req, Clock(100)).t, A, Int(2)));
    AsksForA(s, 2, req, 2, s2);
    JoinsEmpty(s2, req, Decide(s2, 2, req, Finite(5000), Clock(100)));
  }

  lemma JoinsEmpty(s: State, req: LockReq, s': State)
    requires Stage(s, 2, []) && req == THIRD.event.lock && s' == Decide(s, 2, req, Finite(5000), Clock(100))
    ensures Stage(s', 2, [SINGLE]) && s'.t.minted == s.t.minted
  {}

  /** The request for 64 keys is stopped at its first, A, and waits there. */
  lemma QueuesFourth(s: State)
    requires Stage(s, 2, [SINGLE]) && s.t.minted == 0
    ensures Distinct(Keys64()) && Stage(Step(s, Fourth().event, Fourth().env), 2, [SINGLE, Asking(Keys64())])
  {
    KeysRequested();
    AcquireAsks64(s, Many(), Keys64());
    AsksFourth(DrawOne(s), Asking(Keys64()), Step(s, Fourth().event, Fourth().env));
  }

  lemma AcquireAsks64(s: State, req: ManyReq, ks: KeyList)
    requires s.closed == {} && s.lockExpiresAfter == 5000 && s.t.minted == 0
    requires !BadKeys(req.keys) && ks == RequestedKeys(req.keys.entries)
    requires req.uuid == Client(4) && req.ttl == NoTtl && req.wait
    ensures Step(s, AcquireEvent(2, req), Clock(100)) == AskMany(DrawOne(s), Asking(ks), true, Clock(100))
  {
    AcquireIs(s, 2, req, Clock(100), ks);
  }

  lemma AcquireIs(s: State, ws: Ws, req: ManyReq, env: Env, ks: KeyList)
    requires !BadKeys(req.keys) && ks == RequestedKeys(req.keys.entries)
    ensures var w := Waiter(ws, req.uuid, ManyTtl(s, req.ttl), Some(CompositeAsk(ks, Minted(s.t.minted))));
      AcquireMany(s, ws, req, env) == AskMany(DrawOne(s), w, req.wait, env)
  {}

  lemma AsksFourth(s: State, w: Waiter, s': State)
    requires Stage(s, 2, [SINGLE]) && w.composite.Some? && w.composite.value.allKeys != []
    requires w.composite.value.allKeys[0] == A && w.uuid != SINGLE.uuid && s' == AskMany(s, w, true, Clock(100))
    ensures Stage(s', 2, [SINGLE, w])
  {
    var ask := w.composite.value;
    assert TryKeys(s.t, ask.allKeys, w.ws, w.ttl, ask.lockUuid, Clock(100)) == Attempt(s.t, 0, map[], map[], Some(A));
    NothingToTakeBack(s.t, ask.allKeys);
    JoinsSingle(s, w, s');
  }

  lemma {:induction false} NothingToTakeBack(t: Table, ks: seq<Key>)
    ensures Rollback(t, ks, map[]) == t
    decreases |ks|
  {
    if ks != [] { NothingToTakeBack(t, ks[1..]); }
  }

  lemma JoinsSingle(s: State, w: Waiter, s': State)
    requires Stage(s, 2, [SINGLE]) && w.composite.Some? && w.uuid != SINGLE.uuid
    requires TryAll(s.t, w, Clock(100)) == Attempt(s.t, 0, map[], map[], Some(A))
    requires s' == AskMany(s, w, true, Clock(100))
    ensures Stage(s', 2, [SINGLE, w])
  {
    assert !Contains(Queue(s.t, A), w.uuid);
  }

  lemma RunFour(s: State, i1: Input, i2: Input, i3: Input, i4: Input)
    ensures Run(s, [i1, i2, i3, i4]) == Step(Run(s, [i1, i2, i3]), i4.event, i4.env)
  {
    assert [i1, i2, i3, i4] == [i1, i2, i3] + [i4] && [i4][1..] == [];
    RunTwice(s, [i1, i2, i3], [i4]);
    assert Run(Run(s, [i1, i2, i3]), [i4]) == Run(Step(Run(s, [i1, i2, i3]), i4.event, i4.env), []);
  }

  lemma ReachesThird()
    ensures var s := Run(NEW, [FIRST, SECOND, THIRD]); Stage(s, 2, [SINGLE]) && s.t.minted == 0
  {
    LocksFirst();
    var s1 := Step(NEW, FIRST.event, FIRST.env);
    LocksSecond(s1);
    QueuesThird(Step(s1, SECOND.event, SECOND.env));
    RunThree(NEW, FIRST, SECOND, THIRD);
  }

  lemma ReachesFourth()
    ensures Distinct(Keys64())
    ensures Stage(Run(NEW, [FIRST, SECOND, THIRD, Fourth()]), 2, [SINGLE, Asking(Keys64())])
  {
    ReachesThird();
    QueuesFourth(Run(NEW, [FIRST, SECOND, THIRD]));
    RunFour(NEW, FIRST, SECOND, THIRD, Fourth());
  }

  // ----- Behind the gate -----

  /** Both holders of A are unlocked at once. */
  const WIPE := UnlockReq(A, None, None, true)

  /** A is free; the gate lets the drain through. */
  ghost predicate Freed(s: State, q: seq<Waiter>) {
    && s.t.fence == Fence(true, TOP, TOP + 2, None) && s.t.locks.Keys == {A}
    && MaxOf(s.t, A) == 2 && TokenOf(s.t, A) == TOP + 2 && Queue(s.t, A) == q && Holders(s.t, A) == map[]
  }

  lemma WipeDrains(s: State, q: seq<Waiter>)
    requires Stage(s, 2, q) && q != []
    ensures Freed(s.(t := Wipe(s.t, A)), q)
    ensures Unlock(s, Some(1), WIPE, Clock(100)) == Drain(s.(t := Wipe(s.t, A)), A, Clock(100))
  {}

  lemma {:induction false} FreshGranted(t: Table, ks: seq<Key>, ws: Ws, ttl: Millis, lockUuid: Uuid, env: Env)
    requires Distinct(ks) && forall k :: k in ks ==> k !in t.locks
    ensures var a := TryKeys(t, ks, ws, ttl, lockUuid, env); a.contended.None? && a.done == |ks|
    decreases |ks|
  {
    if ks != [] {
      FreshGranted(GrantMember(t, ks[0], ws, ttl, lockUuid, env), ks[1..], ws, ttl, lockUuid, env);
    }
  }

  /** A walk over A and then fresh keys, when A's counter stands at the watermark. */
  lemma WalkFromA(t: Table, ks: seq<Key>, ws: Ws, ttl: Millis, lockUuid: Uuid)
    requires t.fence == Fence(true, TOP, TOP + 3, None) && t.locks.Keys == {A} && TokenOf(t, A) == TOP + 3
    requires !Full(t, A) && Distinct(ks) && ks != [] && ks[0] == A
    ensures NeverExhausts(t, ks, ws, ttl, lockUuid, Clock(100)) <==> |ks| <= 63
    ensures var a := TryKeys(t, ks, ws, ttl, lockUuid, Clock(100)); a.contended.None? && a.done == |ks|
  {
    var t1 := GrantMember(t, A, ws, ttl, lockUuid, Clock(100));
    assert t1.fence == Fence(true, TOP, TOP + 4, None) && t1.locks.Keys == {A} && TokenOf(t1, A) == TOP + 4;
    FreshWalk(t1, ks[1..], ws, ttl, lockUuid, Clock(100));
    FreshGranted(t1, ks[1..], ws, ttl, lockUuid, Clock(100));
  }

  lemma ServesSingle(s: State, w: Waiter)
    requires Freed(s, [SINGLE, w])
    ensures Head(s, A, Clock(100)) == SINGLE && !Full(s.t, A)
    ensures var s1 := ServeNext(s, A, Clock(100));
      && s1.t.fence == Fence(true, TOP, TOP + 3, None) && s1.t.locks.Keys == {A} && TokenOf(s1.t, A) == TOP + 3
      && Queue(s1.t, A) == [w] && !Full(s1.t, A) && Head(s1, A, Clock(100)) == w && Rest(s1, A, Clock(100)) == []
  {
    var q := [SINGLE, w];
    assert NextWaiter(q, Clock(100).live) == (SINGLE, [w]) by { assert q[1..] == [w]; }
    ServeSingle(s, A, Clock(100), A);
    assert Holders(ServeNext(s, A, Clock(100)).t, A).Keys == {SINGLE.uuid};
  }

  /** Of the 64 keys of `w`, the first 63 are granted one after another; the last meets the ceiling. */
  ghost predicate HalfGranted(t: Table, w: Waiter, env: Env) {
    w.composite.Some? && |w.composite.value.allKeys| == 64 && !ServeSafe(t, A, w, env) &&
      var (ks, lockUuid) := (w.composite.value.allKeys[..63], w.composite.value.lockUuid);
      NeverExhausts(t, ks, w.ws, w.ttl, lockUuid, env) && TryKeys(t, ks, w.ws, w.ttl, lockUuid, env).done == 63
  }

  lemma HalfOfMany(t: Table, w: Waiter)
    requires t.fence == Fence(true, TOP, TOP + 3, None) && t.locks.Keys == {A} && TokenOf(t, A) == TOP + 3
    requires !Full(t, A) && w.composite.Some? && |w.composite.value.allKeys| == 64 && w.composite.value.allKeys[0] == A
    ensures HalfGranted(t, w, Clock(100))
  {
    var ask := w.composite.value;
    WalkFromA(t, ask.allKeys, w.ws, w.ttl, ask.lockUuid);
    WalkFromA(t, ask.allKeys[..63], w.ws, w.ttl, ask.lockUuid);
  }

  lemma DrainsHalf(s: State, w: Waiter)
    requires Freed(s, [SINGLE, w]) && w.composite.Some?
    requires |w.composite.value.allKeys| == 64 && w.composite.value.allKeys[0] == A
    ensures HasHeadroom(s.t.fence, MAX_COMPOSITE_KEYS) && !DrainSafe(s, A, Clock(100))
    ensures !Full(s.t, A)
    ensures var s1 := ServeNext(s, A, Clock(100));
      Queue(s1.t, A) == [w] && !Full(s1.t, A) && HalfGranted(Popped(s1, A, Clock(100)), w, Clock(100))
  {
    ServesSingle(s, w);
    var s1 := ServeNext(s, A, Clock(100));
    PoppedAtKey(s1, A, Clock(100), A);
    HalfOfMany(Popped(s1, A, Clock(100)), w);
  }

  /** From a new broker whose floor is 66 below the ceiling: two holders, a single-key waiter, a waiter for
      64 keys. The unlock of both holders starts a drain that its gate lets through; it serves the
      first waiter, and then fails with 63 keys of the second granted. */
  lemma GateLetsHalfThrough()
    ensures var s := Run(NEW, [FIRST, SECOND, THIRD, Fourth()]);
      A in s.t.locks &&
      var s0 := s.(t := Wipe(s.t, A));
      && Unlock(s, Some(1), WIPE, Clock(100)) == Drain(s0, A, Clock(100))
      && HasHeadroom(s0.t.fence, MAX_COMPOSITE_KEYS) && !DrainSafe(s0, A, Clock(100))
      && Queue(s0.t, A) != [] && !Full(s0.t, A)
      && var s1 := ServeNext(s0, A, Clock(100));
        && Queue(s1.t, A) != [] && !Full(s1.t, A)
        && HalfGranted(Popped(s1, A, Clock(100)), Head(s1, A, Clock(100)), Clock(100))
  {
    ReachesFourth();
    var s, w := Run(NEW, [FIRST, SECOND, THIRD, Fourth()]), Asking(Keys64());
    WipeDrains(s, [SINGLE, w]);
    DrainsHalf(s.(t := Wipe(s.t, A)), w);
  }
}

/** Who waits where: what each step does to the queues, first come first served, and the uuids a
    socket answers for. */
module Queues {
  import opened BrokerTypes
  import opened BrokerSpec
  import opened Attempts
  import opened BrokerSteps
  import opened Events
  import opened Invariants
  import opened LostWakeups
  import opened Bookkeeping
  import opened Survival
  import opened Requests
  import opened Safety
  import opened SafeRuns

  // ----- What a request does to the queues -----

  /** The queue after `w` joined it by request `req`. */
  ghost predicate Joined(q: seq<Waiter>, q': seq<Waiter>, req: LockReq, w: Waiter) {
    if req.force then q' == [w] + Remove(q, w.uuid)
    else if Contains(q, w.uuid) then q' == q
    else q' == if req.retry then [w] + q else q + [w]
  }

  /** A lock request leaves every queue as it is, but that its waiter may join its key's. */
  lemma LockQueues(s: State, ws: Ws, req: LockReq, env: Env, s': State)
    requires s' == Lock(s, ws, req, env)
    ensures forall x :: x != req.key ==> Queue(s'.t, x) == Queue(s.t, x)
    ensures var (q, q') := (Queue(s.t, req.key), Queue(s'.t, req.key));
      q' == q || Joined(q, q', req, Waiter(ws, req.uuid, SingleTtl(s, req.ttl), None))
  {
    if !BadMax(req.max) {
      var s1, k, ttl := Register(s, ws, req, env), req.key, SingleTtl(s, req.ttl);
      RegisterSame(s, ws, req, env);
      if k in s1.t.locks {
        DecideQueues(s1.(t := SetMax(s1.t, k, req.max)), ws, req, ttl, env);
      } else {
        var m: Pos := if req.max.Int? then req.max.n else 1;
        MaterializeSame(s1.t, k, m, env);
        GrantNowQueues(s1.(t := Materialize(s1.t, k, m, env)), ws, req, ttl, env);
      }
    }
  }

  lemma GrantNowQueues(s: State, ws: Ws, req: LockReq, ttl: Millis, env: Env)
    requires req.key in s.t.locks
    ensures forall x :: Queue(GrantNow(s, ws, req, ttl, env).t, x) == Queue(s.t, x)
  {}

  lemma DecideQueues(s: State, ws: Ws, req: LockReq, ttl: Millis, env: Env)
    requires req.key in s.t.locks
    ensures var t' := Decide(s, ws, req, ttl, env).t;
      && (forall x :: x != req.key ==> Queue(t', x) == Queue(s.t, x))
      && (|| Queue(t', req.key) == Queue(s.t, req.key)
          || Joined(Queue(s.t, req.key), Queue(t', req.key), req, Waiter(ws, req.uuid, ttl, None)))
  {
    if !Full(s.t, req.key) { GrantNowQueues(s, ws, req, ttl, env); } else { JoinedQueues(s.t, ws, req, ttl); }
  }

  lemma JoinedQueues(t: Table, ws: Ws, req: LockReq, ttl: Millis)
    requires req.key in t.locks
    ensures var t' := JoinQueue(t, ws, req, ttl);
      && (forall x :: x != req.key ==> Queue(t', x) == Queue(t, x))
      && Joined(Queue(t, req.key), Queue(t', req.key), req, Waiter(ws, req.uuid, ttl, None))
  {}

  lemma LockWaits(s: State, ws: Ws, req: LockReq, env: Env, s': State)
    requires s' == Lock(s, ws, req, env)
    ensures forall k, w :: Waits(s'.t, k, w) ==>
      Waits(s.t, k, w) || (k == req.key && w == Waiter(ws, req.uuid, SingleTtl(s, req.ttl), None))
  {
    LockQueues(s, ws, req, env, s');
    RemoveAllKeeps(Queue(s.t, req.key), {req.uuid});
    forall k, w | Waits(s'.t, k, w)
      ensures Waits(s.t, k, w) || (k == req.key && w == Waiter(ws, req.uuid, SingleTtl(s, req.ttl), None))
    {
      if k != req.key { assert Queue(s'.t, k) == Queue(s.t, k); }
    }
  }

  /** A multi-key request adds at most its own waiter, at the back of one queue. */
  lemma AcquireQueues(s: State, ws: Ws, req: ManyReq, env: Env, s': State, x: Key)
    requires s' == AcquireMany(s, ws, req, env) && Drawn(s.t)
    ensures var (q, q') := (Queue(s.t, x), Queue(s'.t, x));
      || q' == q
      || exists w: Waiter :: q' == q + [w] && w.composite.Some? && w.ttl == ManyTtl(s, req.ttl)
  {
    if !BadKeys(req.keys) {
      var ks := RequestedKeys(req.keys.entries);
      var w := Waiter(ws, req.uuid, ManyTtl(s, req.ttl), Some(CompositeAsk(ks, Minted(s.t.minted))));
      DrawnOne(s);
      AskQueues(DrawOne(s), w, req.wait, env, x);
    }
  }

  lemma DrawnOne(s: State)
    requires Drawn(s.t)
    ensures Drawn(DrawOne(s).t)
  {
    assert forall k :: Holders(DrawOne(s).t, k) == Holders(s.t, k);
  }

  lemma AskQueues(s: State, w: Waiter, wait: bool, env: Env, x: Key)
    requires w.composite.Some? && Drawn(s.t)
    ensures var (q, q') := (Queue(s.t, x), Queue(AskMany(s, w, wait, env).t, x));
      q' == q || q' == q + [w]
  {
    var a := TryAll(s.t, w, env);
    TriedQueue(s.t, w, env, x);
    if a.contended.Some? { EnqueuedAt(a.t, a.contended.value, w, x); }
  }

  lemma TriedQueue(t: Table, w: Waiter, env: Env, x: Key)
    requires w.composite.Some? && Drawn(t)
    ensures Queue(TryAll(t, w, env).t, x) == Queue(t, x)
  {
    if TryAll(t, w, env).contended.None? { CompositeAtKey(t, w, env, x); } else { FailedAtKey(t, w, env, x); }
  }

  lemma EnqueuedAt(t: Table, k: Key, w: Waiter, x: Key)
    ensures Queue(Enqueue(t, k, w), x) == Queue(t, x) || Queue(Enqueue(t, k, w), x) == Queue(t, x) + [w]
  {}

  lemma ManyTtlPositive(s: State, raw: RawTtl)
    ensures ManyTtl(s, raw).Finite? ==> ManyTtl(s, raw).n > 0
  {}

  lemma AcquireWaits(s: State, ws: Ws, req: ManyReq, env: Env, s': State)
    requires s' == AcquireMany(s, ws, req, env) && Drawn(s.t)
    ensures forall k, w :: Waits(s'.t, k, w) ==> Waits(s.t, k, w) || (w.composite.Some? && w.ttl == ManyTtl(s, req.ttl))
  {
    forall k, w | Waits(s'.t, k, w) ensures Waits(s.t, k, w) || (w.composite.Some? && w.ttl == ManyTtl(s, req.ttl)) {
      AcquireQueues(s, ws, req, env, s', k);
    }
  }

  // ----- Positive times -----

  /** A lock request does not ask for a negative time. */
  predicate AsksTime(e: Event) {
    e.LockEvent? && e.lock.ttl.MillisTtl? ==> e.lock.ttl.n >= 0
  }

  lemma LockLively(s: State, ws: Ws, req: LockReq, env: Env, s': State)
    requires Lively(s.t) && AsksTime(LockEvent(ws, req)) && s' == Lock(s, ws, req, env)
    ensures Lively(s'.t)
  {
    LockWaits(s, ws, req, env, s');
    if BadMax(req.max) { assert s'.t == s.t; } else { SingleTtlPositive(s, req.ttl); }
  }

  lemma SingleTtlPositive(s: State, raw: RawTtl)
    requires raw.MillisTtl? ==> raw.n >= 0
    ensures SingleTtl(s, raw).Finite? ==> SingleTtl(s, raw).n > 0
  {}

  lemma AcquireLively(s: State, ws: Ws, req: ManyReq, env: Env, s': State)
    requires Drawn(s.t) && Lively(s.t) && s' == AcquireMany(s, ws, req, env)
    ensures Lively(s'.t)
  {
    AcquireWaits(s, ws, req, env, s');
    ManyTtlPositive(s, req.ttl);
  }

  lemma StepLively(s: State, e: Event, env: Env)
    requires Sound(s, {}) && NoLostWakeup(s.t) && Valid(s, e, env) && Lively(s.t) && AsksTime(e)
    ensures Lively(Step(s, e, env).t)
  {
    if Asks(s, e) {
      if e.LockEvent? {
        LockLively(s, e.ws, e.lock, env, Step(s, e, env));
      } else {
        AcquireLively(s, e.ws, e.many, env, Step(s, e, env));
      }
    } else {
      StepKeeps(s, e, env);
      TradedLively(s.t, Step(s, e, env).t, Removed(s, e), env);
    }
  }

  lemma TradedLively(t: Table, t': Table, gone: iset<(Key, Uuid)>, env: Env)
    requires Trades(t, t', gone, env) && Lively(t)
    ensures Lively(t')
  {
    forall k, w | Waits(t', k, w) && w.ttl.Finite? ensures w.ttl.n > 0 {
      if !Waits(t, k, w) { var x :| Waits(t, x, w); }
    }
  }

  lemma {:induction false} RunLively(s: State, ins: seq<Input>)
    requires Sound(s, {}) && NoLostWakeup(s.t) && Lively(s.t) && ValidRun(s, ins)
    requires forall i :: 0 <= i < |ins| ==> AsksTime(ins[i].event)
    ensures Lively(Run(s, ins).t)
    decreases |ins|
  {
    if ins != [] {
      var (e, env) := (ins[0].event, ins[0].env);
      StepKeeps(s, e, env);
      StepServes(s, e, env);
      StepLively(s, e, env);
      RunLively(Step(s, e, env), ins[1..]);
    }
  }

  /** Whatever came before, a sweep is exact. */
  lemma SweepExactAnytime(fence: Fence, lockExpiresAfter: Pos, ins: seq<Input>, now: int, expired: seq<(Uuid, Key)>,
                          env: Env)
    requires ValidRun(Start(fence, lockExpiresAfter), ins) && forall i :: 0 <= i < |ins| ==> AsksTime(ins[i].event)
    requires ExpiredRows(Run(Start(fence, lockExpiresAfter), ins).t, now, expired) && forall u :: env.clock(u) >= now
    ensures var s := Run(Start(fence, lockExpiresAfter), ins); SweptExactly(s, Sweep(s, expired, env), now, expired)
  {
    StartSound(fence, lockExpiresAfter);
    assert Lively(Start(fence, lockExpiresAfter).t) by {
      forall k ensures Queue(Start(fence, lockExpiresAfter).t, k) == [] {}
    }
    RunLively(Start(fence, lockExpiresAfter), ins);
    EveryRunSound(fence, lockExpiresAfter, ins);
    SweepExact(Run(Start(fence, lockExpiresAfter), ins), now, expired, env);
  }

  // ----- First come, first served -----

  /** As long as `w` waits for `k`, uuid `v` does not hold `k`, and waits for it, if at all, behind
      `w`. */
  ghost predicate Behind(t: Table, k: Key, w: Waiter, v: ClientUuid) {
    && v !in Holders(t, k)
    && forall x :: Waits(t, k, x) && x.composite.None? && x.uuid == v ==> Precedes(Queue(t, k), w, x)
  }

  /** `v` does not ask for `k` with `force`, as a retry, or with a `max` its holders do not fill. */
  ghost predicate Patient(s: State, e: Event, k: Key, v: ClientUuid) {
    !Dropped(s, e) && e.LockEvent? && e.lock.key == k && e.lock.uuid == v ==>
      && !e.lock.force && !e.lock.retry
      && (e.lock.max.Int? ==> e.lock.max.n <= |Holders(s.t, k)|)
  }

  lemma AppendOrdered(q: seq<Waiter>, y: Waiter, w: Waiter, x: Waiter)
    requires Precedes(q, w, x) || (w in q && x == y)
    ensures Precedes(q + [y], w, x)
  {
    if Precedes(q, w, x) {
      var i, j :| 0 <= i < j < |q| && q[i] == w && q[j] == x;
      assert (q + [y])[i] == w && (q + [y])[j] == x;
    } else {
      var i :| 0 <= i < |q| && q[i] == w;
      assert (q + [y])[i] == w && (q + [y])[|q|] == x;
    }
  }

  lemma JoinedBehind(q: seq<Waiter>, q': seq<Waiter>, req: LockReq, y: Waiter, w: Waiter, x: Waiter)
    requires forall i, j :: 0 <= i < j < |q| ==> q[i].uuid != q[j].uuid
    requires Joined(q, q', req, y) && y.uuid == req.uuid && w in q && w in q' && x in q' && w != x
    requires x in q ==> Precedes(q, w, x)
    requires req.uuid == x.uuid ==> !req.force && !req.retry
    ensures Precedes(q', w, x)
  {
    RemoveAllKeeps(q, {y.uuid});
    if req.force {
      var r := Remove(q, y.uuid);
      if w == y {
        PrecedesCons(y, r, w, x);
      } else {
        RemoveAllOrdered(q, {y.uuid}, w, x);
        PrecedesCons(y, r, w, x);
      }
    } else if !Contains(q, y.uuid) {
      if req.retry { PrecedesCons(y, q, w, x); } else { AppendOrdered(q, y, w, x); }
    }
  }

  lemma LockHolders(s: State, ws: Ws, req: LockReq, env: Env, v: Uuid)
    requires Sound(s, {}) && NoLostWakeup(s.t) && LockFresh(s.t, req)
    requires v !in Holders(s.t, req.key) && Queue(s.t, req.key) != []
    requires req.uuid == v && req.max.Int? ==> req.max.n <= |Holders(s.t, req.key)|
    ensures v !in Holders(Lock(s, ws, req, env).t, req.key)
  {
    LockSound(s, ws, req, env, iset c | c in s.composites);
    assert Served(s.t, req.key);
    if req.uuid == v && !BadMax(req.max) {
      RegisterSame(s, ws, req, env);
      SetMaxAtKey(Register(s, ws, req, env).t, req.key, req.max);
      StillFull(s, ws, req, env);
    }
  }

  /** A full key that the request leaves full: nobody is granted. */
  lemma StillFull(s: State, ws: Ws, req: LockReq, env: Env)
    requires !BadMax(req.max) && req.key in Register(s, ws, req, env).t.locks
    requires var t2 := SetMax(Register(s, ws, req, env).t, req.key, req.max);
      Full(t2, req.key) && Holders(t2, req.key) == Holders(s.t, req.key)
    ensures Holders(Lock(s, ws, req, env).t, req.key) == Holders(s.t, req.key)
  {
    var s2 := Register(s, ws, req, env).(t := SetMax(Register(s, ws, req, env).t, req.key, req.max));
    FullDecides(s2, ws, req, SingleTtl(s, req.ttl), env);
  }

  lemma FullDecides(s: State, ws: Ws, req: LockReq, ttl: Millis, env: Env)
    requires req.key in s.t.locks && Full(s.t, req.key)
    ensures Holders(Decide(s, ws, req, ttl, env).t, req.key) == Holders(s.t, req.key)
  {}

  lemma LockBehind(s: State, ws: Ws, req: LockReq, env: Env, s': State, k: Key, w: Waiter, v: ClientUuid)
    requires Sound(s, {}) && NoLostWakeup(s.t) && LockFresh(s.t, req) && s' == Lock(s, ws, req, env)
    requires Patient(s, LockEvent(ws, req), k, v) && ws !in s.closed
    requires w.composite.None? && w.uuid != v && Waits(s.t, k, w) && Waits(s'.t, k, w) && Behind(s.t, k, w, v)
    ensures Behind(s'.t, k, w, v)
  {
    LockQueues(s, ws, req, env, s');
    if k == req.key {
      LockHolders(s, ws, req, env, v);
      var y := Waiter(ws, req.uuid, SingleTtl(s, req.ttl), None);
      forall x | Waits(s'.t, k, x) && x.composite.None? && x.uuid == v ensures Precedes(Queue(s'.t, k), w, x) {
        assert x in Queue(s.t, k) ==> Waits(s.t, k, x);
        if Queue(s'.t, k) != Queue(s.t, k) { JoinedBehind(Queue(s.t, k), Queue(s'.t, k), req, y, w, x); }
      }
    } else {
      LockSound(s, ws, req, env, iset c | c in s.composites);
      assert Queue(s'.t, k) == Queue(s.t, k);
      assert forall x :: Waits(s'.t, k, x) ==> Waits(s.t, k, x);
    }
  }

  lemma AcquireBehind(s: State, ws: Ws, req: ManyReq, env: Env, s': State, k: Key, w: Waiter, v: ClientUuid)
    requires Sound(s, {}) && s' == AcquireMany(s, ws, req, env) && Behind(s.t, k, w, v)
    ensures Behind(s'.t, k, w, v)
  {
    AcquireManySound(s, ws, req, env, iset c | c in s.composites);
    AcquireQueues(s, ws, req, env, s', k);
    AskedBehind(s.t, s'.t, k, w, v);
  }

  lemma AskedBehind(t: Table, t': Table, k: Key, w: Waiter, v: ClientUuid)
    requires AddsMinted(t, t', t.minted) && Behind(t, k, w, v)
    requires Queue(t', k) == Queue(t, k) || exists y: Waiter :: Queue(t', k) == Queue(t, k) + [y] && y.composite.Some?
    ensures Behind(t', k, w, v)
  {
    var u: Uuid := v;
    assert u.Client? && (u in Holders(t', k) && u !in Holders(t, k) ==> u.Minted?);
    forall x | Waits(t', k, x) && x.composite.None? && x.uuid == v ensures Precedes(Queue(t', k), w, x) {
      assert Waits(t, k, x);
      if Queue(t', k) != Queue(t, k) { AppendOrdered(Queue(t, k), Queue(t', k)[|Queue(t, k)|], w, x); }
    }
  }

  lemma NotPassed(t: Table, t': Table, k: Key, w: Waiter, x: Waiter)
    requires Ordered(t, t') && InLine(t, k, w, x) && x.uuid !in Holders(t, k) && Waits(t', k, w)
    ensures x.uuid !in Holders(t', k)
  {}

  lemma TradedBehind(t: Table, t': Table, gone: iset<(Key, Uuid)>, env: Env, k: Key, w: Waiter, v: ClientUuid)
    requires Trades(t, t', gone, env) && QueuesDistinct(t)
    requires w.composite.None? && Waits(t, k, w) && Waits(t', k, w) && Behind(t, k, w, v)
    ensures Behind(t', k, w, v)
  {
    forall x | Waits(t, k, x) && x.composite.None? && x.uuid == v ensures v !in Holders(t', k) {
      assert InLine(t, k, w, x);
      NotPassed(t, t', k, w, x);
    }
    GrantedWaited(t, t', gone, env, k, v);
    forall x | Waits(t', k, x) && x.composite.None? && x.uuid == v ensures Precedes(Queue(t', k), w, x) {
      assert Waits(t, k, x) && InLine(t, k, w, x);
    }
  }

  /** Who is granted a key waited for it. */
  lemma GrantedWaited(t: Table, t': Table, gone: iset<(Key, Uuid)>, env: Env, k: Key, v: ClientUuid)
    requires Trades(t, t', gone, env)
    ensures v in Holders(t', k) && v !in Holders(t, k) ==>
      exists x :: Waits(t, k, x) && x.composite.None? && x.uuid == v
  {
    if v in Holders(t', k) && v !in Holders(t, k) {
      assert Newcomer(t, t', k, v, env);
      InvitedWaits(t, k, v, Holders(t', k)[v], env);
    }
  }

  /** No step lets `v` past `w`. */
  lemma StepBehind(s: State, e: Event, env: Env, k: Key, w: Waiter, v: ClientUuid)
    requires Sound(s, {}) && NoLostWakeup(s.t) && Valid(s, e, env) && Patient(s, e, k, v)
    requires w.composite.None? && w.uuid != v && Waits(s.t, k, w)
    requires Waits(Step(s, e, env).t, k, w) && Behind(s.t, k, w, v)
    ensures Behind(Step(s, e, env).t, k, w, v)
  {
    if Asks(s, e) {
      if e.LockEvent? { LockBehind(s, e.ws, e.lock, env, Step(s, e, env), k, w, v); }
      else { AcquireBehind(s, e.ws, e.many, env, Step(s, e, env), k, w, v); }
    } else {
      StepKeeps(s, e, env);
      TradedBehind(s.t, Step(s, e, env).t, Removed(s, e), env, k, w, v);
    }
  }

  /** A run throughout which `w` waits for `k` and `v` is patient. */
  ghost predicate PatientRun(s: State, ins: seq<Input>, k: Key, w: Waiter, v: ClientUuid)
    decreases |ins|
  {
    Waits(s.t, k, w) && (ins != [] ==>
      var (e, env) := (ins[0].event, ins[0].env);
      Valid(s, e, env) && Raise(s, e) && Patient(s, e, k, v) && PatientRun(Step(s, e, env), ins[1..], k, w, v))
  }

  /** No overtaking: while single-key waiter `w` waits for `k`, nobody who was behind it or asks
      after it is granted `k`, unless by force, as a retry, or by raising the key's max. */
  lemma {:induction false} NoOvertaking(s: State, ins: seq<Input>, k: Key, w: Waiter, v: ClientUuid)
    requires Sound(s, {}) && NoLostWakeup(s.t) && w.composite.None? && w.uuid != v && Behind(s.t, k, w, v)
    requires PatientRun(s, ins, k, w, v)
    ensures Behind(Run(s, ins).t, k, w, v)
    decreases |ins|
  {
    if ins != [] {
      var (e, env) := (ins[0].event, ins[0].env);
      assert Waits(Step(s, e, env).t, k, w);
      StepBehind(s, e, env, k, w, v);
      StepKeeps(s, e, env);
      StepServes(s, e, env);
      NoOvertaking(Step(s, e, env), ins[1..], k, w, v);
    }
  }
}

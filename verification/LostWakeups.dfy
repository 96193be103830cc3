/** No lost wakeup: whatever the step, a key with a waiter has no free slot afterwards, unless
    the step raises the key's `max` past what one grant can fill. */
module LostWakeups {
  import opened BrokerTypes
  import opened BrokerSpec
  import opened Attempts
  import opened BrokerSteps
  import opened Invariants
  import opened Events

  /** `t'` differs from `t` on key `k` only, and names no undrawn uuid `t` did not name. */
  ghost predicate Edited(t: Table, t': Table, k: Key) {
    && t'.minted == t.minted
    && (forall u :: u in t'.deadlines ==> u in t.deadlines || u.Client?)
    && (forall u :: u in Holders(t', k) ==> u in Holders(t, k) || u.Client?)
    && (forall x :: x != k ==> Holders(t', x) == Holders(t, x) && Queue(t', x) == Queue(t, x))
    && (forall x :: x != k && Queue(t, x) != [] ==> MaxOf(t', x) == MaxOf(t, x))
  }

  lemma EditKeeps(t: Table, t': Table, k: Key)
    requires Edited(t, t', k) && Drawn(t) && forall x :: x != k ==> Served(t, x)
    ensures Drawn(t') && forall x :: x != k ==> Served(t', x)
    ensures Served(t', k) ==> NoLostWakeup(t')
  {
    forall x | x != k ensures Served(t', x) { assert Served(t, x); }
    forall x, u | u in Holders(t', x) && u.Minted? ensures u.n < t'.minted {
      assert x != k ==> Holders(t', x) == Holders(t, x);
    }
  }

  // ----- Steps that free a slot, then serve the queue -----

  lemma DropEdits(t: Table, k: Key, gone: Option<Uuid>)
    ensures Edited(t, DropGone(t, k, gone), k)
  {}

  lemma MarkEdits(t: Table, k: Key, env: Env)
    requires k in t.locks
    ensures Edited(t, MarkEmptied(t, k, env), k) && Queue(MarkEmptied(t, k, env), k) == Queue(t, k)
  {}

  lemma EnsureServes(s: State, k: Key, gone: Option<Uuid>, env: Env)
    requires k in s.t.locks && Drawn(s.t) && forall x :: x != k ==> Served(s.t, x)
    ensures var s' := EnsureNewLockHolder(s, k, gone, env);
      Drawn(s'.t) && NoLostWakeup(s'.t)
  {
    var t1 := DropGone(s.t, k, gone);
    DropEdits(s.t, k, gone);
    EditKeeps(s.t, t1, k);
    if Holders(t1, k) == map[] && Queue(t1, k) == [] {
      MarkEdits(t1, k, env);
      EditKeeps(t1, MarkEmptied(t1, k, env), k);
    } else {
      DrainServes(s.(t := t1), k, env);
    }
  }

  lemma FreeingEdits(t: Table, req: UnlockReq)
    requires req.key in t.locks && Freeing(t, req).Some?
    ensures Edited(t, Freeing(t, req).value, req.key) && req.key in Freeing(t, req).value.locks
  {}

  lemma UnlockServes(s: State, ws: Option<Ws>, req: UnlockReq, env: Env)
    requires Drawn(s.t) && NoLostWakeup(s.t)
    ensures Drawn(Unlock(s, ws, req, env).t) && NoLostWakeup(Unlock(s, ws, req, env).t)
  {
    var s0 := Forget(s, ws, req.target);
    if req.key in s.t.locks && Freeing(s.t, req).Some? {
      var t1 := Freeing(s.t, req).value;
      FreeingEdits(s.t, req);
      EditKeeps(s.t, t1, req.key);
      EnsureServes(ReplyUnlock(s0.(t := t1), ws, req, |Queue(s.t, req.key)|, true, env), req.key, req.target, env);
    }
  }

  lemma {:induction false} ReleaseMembersServes(s: State, ks: seq<Key>, us: map<Key, Uuid>, env: Env)
    requires Drawn(s.t) && NoLostWakeup(s.t)
    ensures Drawn(ReleaseMembers(s, ks, us, env).t) && NoLostWakeup(ReleaseMembers(s, ks, us, env).t)
    decreases |ks|
  {
    if ks != [] {
      var k := ks[0];
      if k in us && k in s.t.locks {
        var t1 := ReleaseMember(s.t, k, us[k]);
        EditKeeps(s.t, t1, k);
        EnsureServes(s.(t := t1), k, Some(us[k]), env);
        ReleaseMembersServes(EnsureNewLockHolder(s.(t := t1), k, Some(us[k]), env), ks[1..], us, env);
      } else {
        ReleaseMembersServes(s, ks[1..], us, env);
      }
    }
  }

  lemma TimeOutEdits(t: Table, k: Key, u: Uuid)
    ensures Edited(t, DropRow(t, u), k)
    ensures k in t.locks ==> Edited(t, TimeOut(DropRow(t, u), k, u), k)
  {}

  lemma EvictServes(s: State, u: Uuid, k: Key, env: Env)
    requires Drawn(s.t) && NoLostWakeup(s.t)
    ensures Drawn(Evict(s, u, k, env).t) && NoLostWakeup(Evict(s, u, k, env).t)
  {
    TimeOutEdits(s.t, k, u);
    if u in Holders(s.t, k) {
      var t1 := TimeOut(DropRow(s.t, u), k, u);
      EditKeeps(s.t, t1, k);
      EnsureServes(s.(t := t1), k, Some(u), env);
    } else {
      EditKeeps(s.t, DropRow(s.t, u), k);
      assert Served(s.t, k);
    }
  }

  lemma {:induction false} SweepServes(s: State, expired: seq<(Uuid, Key)>, env: Env)
    requires Drawn(s.t) && NoLostWakeup(s.t)
    ensures Drawn(Sweep(s, expired, env).t) && NoLostWakeup(Sweep(s, expired, env).t)
    decreases |expired|
  {
    if expired != [] {
      EvictServes(s, expired[0].0, expired[0].1, env);
      SweepServes(Evict(s, expired[0].0, expired[0].1, env), expired[1..], env);
    }
  }

  lemma {:induction false} UnlockOwnedServes(s: State, k: Key, us: seq<Uuid>, ws: Ws, env: Env)
    requires Drawn(s.t) && NoLostWakeup(s.t)
    ensures Drawn(UnlockOwned(s, k, us, ws, env).t) && NoLostWakeup(UnlockOwned(s, k, us, ws, env).t)
    decreases |us|
  {
    if us != [] {
      var req := UnlockReq(k, None, Some(us[0]), true);
      UnlockServes(s, Some(ws), req, env);
      UnlockOwnedServes(Unlock(s, Some(ws), req, env), k, us[1..], ws, env);
    }
  }

  lemma {:induction false} ScrubKeysServes(s: State, visits: Visits, uuids: set<Uuid>, ws: Ws, env: Env)
    requires Drawn(s.t) && NoLostWakeup(s.t)
    ensures Drawn(ScrubKeys(s, visits, uuids, ws, env).t) && NoLostWakeup(ScrubKeys(s, visits, uuids, ws, env).t)
    decreases |visits|
  {
    if visits != [] {
      var (k, us) := visits[0];
      if k in s.t.locks {
        var t1 := ScrubQueue(s.t, k, uuids, ws);
        EditKeeps(s.t, t1, k);
        assert Served(s.t, k);
        UnlockOwnedServes(s.(t := t1), k, us, ws, env);
        ScrubKeysServes(ScrubKey(s, k, uuids, us, ws, env), visits[1..], uuids, ws, env);
      } else {
        ScrubKeysServes(s, visits[1..], uuids, ws, env);
      }
    }
  }

  // ----- Steps that grant or queue -----

  /** Drawing a uuid changes nothing. */
  lemma DrawServes(t: Table)
    requires Drawn(t) && NoLostWakeup(t)
    ensures Drawn(t.(minted := t.minted + 1)) && NoLostWakeup(t.(minted := t.minted + 1))
  {
    var t0 := t.(minted := t.minted + 1);
    forall k, u | u in Holders(t0, k) && u.Minted? ensures u.n < t0.minted { assert u in Holders(t, k); }
    forall k ensures Served(t0, k) { assert Served(t, k); }
  }

  lemma AcquireManyServes(s: State, ws: Ws, req: ManyReq, env: Env)
    requires Drawn(s.t) && NoLostWakeup(s.t)
    ensures Drawn(AcquireMany(s, ws, req, env).t) && NoLostWakeup(AcquireMany(s, ws, req, env).t)
  {
    if !BadKeys(req.keys) {
      var ks := RequestedKeys(req.keys.entries);
      var w := Waiter(ws, req.uuid, ManyTtl(s, req.ttl), Some(CompositeAsk(ks, Minted(s.t.minted))));
      DrawServes(s.t);
      AskServes(DrawOne(s), w, req.wait, env);
    }
  }

  lemma AskServes(s: State, w: Waiter, wait: bool, env: Env)
    requires w.composite.Some? && Drawn(s.t) && NoLostWakeup(s.t)
    ensures Drawn(AskMany(s, w, wait, env).t) && NoLostWakeup(AskMany(s, w, wait, env).t)
  {
    TryAllServes(s.t, w, env);
  }

  /** Neither outcome of an attempt leaves a waiter short; nor does queueing it where it stopped. */
  lemma TryAllServes(t: Table, w: Waiter, env: Env)
    requires w.composite.Some? && Drawn(t) && NoLostWakeup(t)
    ensures var a := TryAll(t, w, env);
      && Drawn(a.t) && NoLostWakeup(a.t)
      && (a.contended.Some? ==>
           Drawn(Enqueue(a.t, a.contended.value, w)) && NoLostWakeup(Enqueue(a.t, a.contended.value, w)))
  {
    var a := TryAll(t, w, env);
    TryAllDrawn(t, w, env);
    forall k ensures Served(a.t, k) { assert Served(t, k); TryAllServesKey(t, w, env, k); }
    if a.contended.Some? {
      FailedStop(t, w, env);
      EnqueueServes(a.t, a.contended.value, w);
    }
  }

  lemma EnqueueServes(t: Table, k: Key, w: Waiter)
    requires Drawn(t) && NoLostWakeup(t) && Full(t, k)
    ensures Drawn(Enqueue(t, k, w)) && NoLostWakeup(Enqueue(t, k, w))
  {
    var t' := Enqueue(t, k, w);
    EnqueueEdits(t, k, w);
    EditKeeps(t, t', k);
  }

  lemma EnqueueEdits(t: Table, k: Key, w: Waiter)
    requires Full(t, k)
    ensures Edited(t, Enqueue(t, k, w), k) && Full(Enqueue(t, k, w), k)
  {}

  lemma TryAllServesKey(t: Table, w: Waiter, env: Env, k: Key)
    requires w.composite.Some? && Drawn(t) && Served(t, k)
    ensures Served(TryAll(t, w, env).t, k)
  {
    if TryAll(t, w, env).contended.Some? {
      FailedAtKey(t, w, env, k);
    } else {
      TryKeysAtKey(t, w.composite.value.allKeys, w.ws, w.ttl, w.composite.value.lockUuid, env, k);
    }
  }

  lemma TryAllDrawn(t: Table, w: Waiter, env: Env)
    requires w.composite.Some? && Drawn(t)
    ensures Drawn(TryAll(t, w, env).t)
  {
    var ask, a := w.composite.value, TryAll(t, w, env);
    TryKeysMints(t, ask.allKeys, w.ws, w.ttl, ask.lockUuid, env);
    if a.contended.Some? {
      FailedDeadlines(t, w, env);
      forall k, u | u in Holders(a.t, k) && u.Minted? ensures u.n < a.t.minted { FailedAtKey(t, w, env, k); }
      FailedAtKey(t, w, env, a.contended.value);
    } else {
      forall k, u | u in Holders(a.t, k) && u.Minted? ensures u.n < a.t.minted {
        TryKeysAtKey(t, ask.allKeys, w.ws, w.ttl, ask.lockUuid, env, k);
      }
      forall u | u in a.t.deadlines && u.Minted? ensures u.n < a.t.minted {
        TryKeysAtUuid(t, ask.allKeys, w.ws, w.ttl, ask.lockUuid, env, u);
      }
    }
  }

  /** What a caller of `lock` can check: no waiter, or a `max` that the holders, with the caller
      added, still fill. */
  ghost predicate RaiseOk(t: Table, req: LockReq) {
    || !req.max.Int? || BadMax(req.max)
    || Queue(t, req.key) == []
    || req.max.n <= |Holders(t, req.key).Keys + {req.uuid}|
  }

  /** Granting at once leaves the key served exactly when nobody waits for it, or the holders,
      with the caller added, fill it. */
  lemma GrantNowServes(s: State, ws: Ws, req: LockReq, ttl: Millis, env: Env)
    requires req.key in s.t.locks && Drawn(s.t) && forall x :: x != req.key ==> Served(s.t, x)
    ensures var t' := GrantNow(s, ws, req, ttl, env).t;
      && Drawn(t')
      && (NoLostWakeup(t') <==>
           Queue(s.t, req.key) == [] || MaxOf(s.t, req.key) <= |Holders(s.t, req.key).Keys + {req.uuid}|)
  {
    var k, t' := req.key, Grant(s.t, req.key, req.uuid, ws, ttl, None, env);
    GrantEdits(s.t, k, req.uuid, ws, ttl, env);
    GrantFills(s.t, k, req.uuid, ws, ttl, env);
    FilledServes(s.t, t', k, req.uuid);
  }

  lemma GrantEdits(t: Table, k: Key, u: Uuid, ws: Ws, ttl: Millis, env: Env)
    requires k in t.locks && u.Client?
    ensures Edited(t, Grant(t, k, u, ws, ttl, None, env), k)
  {}

  lemma FilledServes(t: Table, t': Table, k: Key, u: Uuid)
    requires Edited(t, t', k) && Drawn(t) && forall x :: x != k ==> Served(t, x)
    requires |Holders(t', k)| == |Holders(t, k).Keys + {u}| && Queue(t', k) == Queue(t, k)
    requires MaxOf(t', k) == MaxOf(t, k)
    ensures Drawn(t')
    ensures NoLostWakeup(t') <==> Queue(t, k) == [] || MaxOf(t, k) <= |Holders(t, k).Keys + {u}|
  {
    EditKeeps(t, t', k);
    assert NoLostWakeup(t') ==> Served(t', k);
  }

  lemma GrantFills(t: Table, k: Key, u: Uuid, ws: Ws, ttl: Millis, env: Env)
    requires k in t.locks
    ensures var t' := Grant(t, k, u, ws, ttl, None, env);
      |Holders(t', k)| == |Holders(t, k).Keys + {u}| && Queue(t', k) == Queue(t, k) && MaxOf(t', k) == MaxOf(t, k)
  {
    var t' := Grant(t, k, u, ws, ttl, None, env);
    assert Holders(t', k).Keys == Holders(t, k).Keys + {u};
    assert |Holders(t', k)| == |Holders(t', k).Keys|;
  }

  lemma InUseEdits(t: Table, k: Key)
    ensures Edited(t, InUse(t, k), k) && k in InUse(t, k).locks <==> k in t.locks
    ensures Holders(InUse(t, k), k) == Holders(t, k) && Queue(InUse(t, k), k) == Queue(t, k)
    ensures MaxOf(InUse(t, k), k) == MaxOf(t, k)
  {}

  lemma CleanUpEdits(t: Table, now: int, k: Key)
    requires k in t.locks ==> t.locks[k].emptiedAt.None?
    ensures var t' := CleanUpLocks(t, now);
      && Edited(t, t', k) && (k in t'.locks <==> k in t.locks)
      && Holders(t', k) == Holders(t, k) && Queue(t', k) == Queue(t, k) && MaxOf(t', k) == MaxOf(t, k)
  {}

  lemma RegisterEdits(s: State, ws: Ws, req: LockReq, env: Env)
    requires Drawn(s.t) && NoLostWakeup(s.t)
    ensures var t' := Register(s, ws, req, env).t;
      && Drawn(t') && NoLostWakeup(t')
      && (req.key in t'.locks <==> req.key in s.t.locks)
      && Holders(t', req.key) == Holders(s.t, req.key) && Queue(t', req.key) == Queue(s.t, req.key)
      && MaxOf(t', req.key) == MaxOf(s.t, req.key)
  {
    var k, t1 := req.key, InUse(s.t, req.key);
    assert Served(s.t, k);
    InUseEdits(s.t, k);
    EditKeeps(s.t, t1, k);
    CleanUpEdits(t1, env.now, k);
    EditKeeps(t1, CleanUpLocks(t1, env.now), k);
  }

  lemma SetMaxEdits(t: Table, k: Key, m: RawMax)
    requires !BadMax(m)
    ensures var t' := SetMax(t, k, m);
      && Edited(t, t', k) && t'.locks.Keys == t.locks.Keys
      && Holders(t', k) == Holders(t, k) && Queue(t', k) == Queue(t, k)
      && (k in t.locks ==> MaxOf(t', k) == if m.Int? then m.n else MaxOf(t, k))
  {}

  lemma LockServes(s: State, ws: Ws, req: LockReq, env: Env)
    requires Drawn(s.t) && NoLostWakeup(s.t)
    ensures Drawn(Lock(s, ws, req, env).t)
    ensures NoLostWakeup(Lock(s, ws, req, env).t) <==> RaiseOk(s.t, req)
  {
    if !BadMax(req.max) {
      var s1, k, ttl := Register(s, ws, req, env), req.key, SingleTtl(s, req.ttl);
      var t2 := SetMax(s1.t, k, req.max);
      RegisterEdits(s, ws, req, env);
      SetMaxEdits(s1.t, k, req.max);
      EditKeeps(s1.t, t2, k);
      assert Served(s1.t, k);
      if k !in s1.t.locks {
        var m: Pos := if req.max.Int? then req.max.n else 1;
        MaterializeEdits(s1.t, k, m, env);
        EditKeeps(s1.t, Materialize(s1.t, k, m, env), k);
        GrantNowServes(s1.(t := Materialize(s1.t, k, m, env)), ws, req, ttl, env);
      } else if Full(t2, k) {
        JoinServes(t2, ws, req, ttl);
        FullHolders(s.t, t2, req);
      } else {
        GrantNowServes(s1.(t := t2), ws, req, ttl, env);
      }
    }
  }

  lemma MaterializeEdits(t: Table, k: Key, max: Pos, env: Env)
    ensures var t' := Materialize(t, k, max, env);
      Edited(t, t', k) && k in t'.locks && Holders(t', k) == Holders(t, k) && Queue(t', k) == Queue(t, k)
  {}

  lemma FullHolders(t: Table, t2: Table, req: LockReq)
    requires Full(t2, req.key) && Holders(t2, req.key) == Holders(t, req.key)
    requires req.max.Int? ==> MaxOf(t2, req.key) == req.max.n
    ensures RaiseOk(t, req)
  {
    var hs := Holders(t, req.key);
    assert |hs| == |hs.Keys|;
    assert hs.Keys + {req.uuid} == hs.Keys + ({req.uuid} - hs.Keys);
  }

  lemma JoinServes(t: Table, ws: Ws, req: LockReq, ttl: Millis)
    requires req.key in t.locks && Full(t, req.key) && Drawn(t) && forall x :: x != req.key ==> Served(t, x)
    ensures Drawn(JoinQueue(t, ws, req, ttl)) && NoLostWakeup(JoinQueue(t, ws, req, ttl)) && NoLostWakeup(t)
  {
    EditKeeps(t, t, req.key);
    EditKeeps(t, JoinQueue(t, ws, req, ttl), req.key);
  }

  // ----- Every step, and whole runs -----

  ghost predicate Raise(s: State, e: Event) {
    !Dropped(s, e) && e.LockEvent? ==> RaiseOk(s.t, e.lock)
  }

  /** A step keeps every key served exactly when it is not a `lock` that raises the `max` of a
      queued key past its holders and the caller. */
  lemma StepServes(s: State, e: Event, env: Env)
    requires Drawn(s.t) && NoLostWakeup(s.t)
    ensures Drawn(Step(s, e, env).t)
    ensures NoLostWakeup(Step(s, e, env).t) <==> Raise(s, e)
  {
    if !Dropped(s, e) {
      match e {
        case LockEvent(ws, req) => LockServes(s, ws, req, env);
        case UnlockEvent(from, req) => UnlockServes(s, from, req, env);
        case AcquireEvent(ws, req) => AcquireManyServes(s, ws, req, env);
        case ReleaseEvent(ws, req) =>
          if req.lockUuid.Some? && req.lockUuid.value in s.composites {
            var c := s.composites[req.lockUuid.value];
            ReleaseMembersServes(s, c.keys, c.holderUuids, env);
          }
        case TickEvent(_, expired) => SweepServes(s, expired, env);
        case CloseEvent(ws, visits) => ScrubKeysServes(Unplugged(s, ws), visits, Leaving(s, ws), ws, env);
        case GiveUpEvent(_, k, u) =>
          if k in s.t.locks {
            EditKeeps(s.t, GiveUp(s, k, u).t, k);
            assert Served(s.t, k);
          }
      }
    }
  }

  /** No step of the run raises a queued key's max too far. */
  ghost predicate NoRaise(s: State, ins: seq<Input>)
    decreases |ins|
  {
    ins != [] ==> Raise(s, ins[0].event) && NoRaise(Step(s, ins[0].event, ins[0].env), ins[1..])
  }

  /** Whole runs, from any served state (the empty broker among them). */
  lemma {:induction false} RunServes(s: State, ins: seq<Input>)
    requires Drawn(s.t) && NoLostWakeup(s.t) && NoRaise(s, ins)
    ensures Drawn(Run(s, ins).t) && NoLostWakeup(Run(s, ins).t)
    decreases |ins|
  {
    if ins != [] {
      StepServes(s, ins[0].event, ins[0].env);
      RunServes(Step(s, ins[0].event, ins[0].env), ins[1..]);
    }
  }
}

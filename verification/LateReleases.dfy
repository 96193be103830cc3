/** Zombies: an unlock or a release that comes after its hold is gone disturbs nobody, and the
    first one after a sweep is still told that it unlocked, as long as the key's lock object lives. */
module LateReleases {
  import opened BrokerTypes
  import opened BrokerSpec
  import opened BrokerSteps
  import opened Events
  import opened Bookkeeping
  import opened Registries
  import opened Survival
  import opened Releases
  import opened Visiting

  // ----- Nobody else is disturbed -----

  /** An unlock naming a uuid that does not hold its key takes away no hold; a forced one changes nothing. */
  lemma LateUnlockHarmless(s: State, from: Option<Ws>, req: UnlockReq, env: Env)
    requires Sound(s, {}) && NamesOwnKey(s.t, req)
    requires req.target.Some? && req.target.value !in Holders(s.t, req.key)
    ensures var s' := Unlock(s, from, req, env);
      && (forall k, u :: u in Holders(s.t, k) ==> SameHolder(s.t, s'.t, k, u))
      && (req.force ==> s'.t == s.t && s'.composites == s.composites)
  {
    UnlockSound(s, from, req, env, {}, Recorded(s));
    assert Unlocked(s.t, req) == iset{};
    if req.force { ForcedLateUnlock(s, from, req, env); }
  }

  lemma ForcedLateUnlock(s: State, from: Option<Ws>, req: UnlockReq, env: Env)
    requires req.force && req.target.Some? && req.target.value !in Holders(s.t, req.key)
    ensures var s' := Unlock(s, from, req, env); s'.t == s.t && s'.composites == s.composites
  {}

  /** Releasing a composite that is not registered (already released, or never granted) changes
      nothing and is answered so. */
  lemma LateReleaseHarmless(s: State, ws: Ws, req: ReleaseReq, env: Env)
    requires req.lockUuid.None? || req.lockUuid.value !in s.composites
    ensures var s' := ReleaseMany(s, ws, req, env);
      && s'.t == s.t && s'.composites == s.composites
      && (ws in env.live ==> s'.out == s.out + [ReleaseFrame(ws, req.uuid, false)])
  {}

  // ----- The first late unlock -----

  /** `u` does not hold `k`, nor wait for it alone, nor does `k` remember it; nor is it still to be drawn. */
  ghost predicate Foreign(t: Table, k: Key, u: Uuid) {
    && u !in Holders(t, k) && !Late(t, k, u)
    && (forall w :: w in Queue(t, k) && w.composite.None? ==> w.uuid != u)
    && (u.Minted? ==> u.n < t.minted)
  }

  /** Lock objects stay; a uuid that `x` remembers it goes on remembering, and one foreign to it stays so. */
  ghost predicate Recalls(t: Table, t': Table, x: Key, u: Uuid) {
    && t.locks.Keys <= t'.locks.Keys && t.minted <= t'.minted
    && (Late(t, x, u) ==> Late(t', x, u)) && (Foreign(t, x, u) ==> Foreign(t', x, u))
  }

  lemma RecallsTransitive(t: Table, t1: Table, t2: Table, x: Key, u: Uuid)
    requires Recalls(t, t1, x, u) && Recalls(t1, t2, x, u)
    ensures Recalls(t, t2, x, u)
  {}

  lemma MemberRecalls(t: Table, k: Key, ws: Ws, ttl: Millis, lockUuid: Uuid, env: Env, x: Key, u: Uuid)
    ensures Recalls(t, GrantMember(t, k, ws, ttl, lockUuid, env), x, u)
  {}

  lemma {:induction false} TryKeysRecalls(t: Table, ks: seq<Key>, ws: Ws, ttl: Millis, lockUuid: Uuid, env: Env,
                                          x: Key, u: Uuid)
    ensures Recalls(t, TryKeys(t, ks, ws, ttl, lockUuid, env).t, x, u)
    decreases |ks|
  {
    if ks != [] && !Full(t, ks[0]) {
      MemberRecalls(t, ks[0], ws, ttl, lockUuid, env, x, u);
      TryKeysRecalls(GrantMember(t, ks[0], ws, ttl, lockUuid, env), ks[1..], ws, ttl, lockUuid, env, x, u);
    }
  }

  lemma DropRecalls(t: Table, k: Key, v: Uuid, x: Key, u: Uuid)
    ensures Recalls(t, Drop(t, k, v), x, u)
  {}

  lemma {:induction false} RollbackRecalls(t: Table, ks: seq<Key>, us: map<Key, Uuid>, x: Key, u: Uuid)
    ensures Recalls(t, Rollback(t, ks, us), x, u)
    decreases |ks|
  {
    if ks != [] {
      var t1 := if ks[0] in us then Drop(t, ks[0], us[ks[0]]) else t;
      DropRecalls(t, ks[0], if ks[0] in us then us[ks[0]] else u, x, u);
      RollbackRecalls(t1, ks[1..], us, x, u);
    }
  }

  lemma TryAllRecalls(t: Table, w: Waiter, env: Env, x: Key, u: Uuid)
    requires w.composite.Some?
    ensures Recalls(t, TryAll(t, w, env).t, x, u)
  {
    var ask := w.composite.value;
    var a := TryKeys(t, ask.allKeys, w.ws, w.ttl, ask.lockUuid, env);
    TryKeysRecalls(t, ask.allKeys, w.ws, w.ttl, ask.lockUuid, env, x, u);
    RollbackRecalls(a.t, ask.allKeys, a.us, x, u);
  }

  lemma EnqueueRecalls(t: Table, k: Key, w: Waiter, x: Key, u: Uuid)
    requires w.composite.Some?
    ensures Recalls(t, Enqueue(t, k, w), x, u)
  {}

  lemma MarkRecalls(t: Table, k: Key, env: Env, x: Key, u: Uuid)
    requires k in t.locks
    ensures Recalls(t, MarkEmptied(t, k, env), x, u)
  {}

  lemma RetryRecalls(s: State, w: Waiter, env: Env, x: Key, u: Uuid)
    requires w.composite.Some?
    ensures Recalls(s.t, RetryMany(s, w, env).t, x, u)
  {
    var a := TryAll(s.t, w, env);
    TryAllRecalls(s.t, w, env, x, u);
    if a.contended.Some? { EnqueueRecalls(a.t, a.contended.value, w, x, u); }
  }

  lemma PopRecalls(t: Table, k: Key, q: seq<Waiter>, x: Key, u: Uuid)
    requires k in t.locks && forall v :: v in q ==> v in Queue(t, k)
    ensures Recalls(t, SetQueue(t, k, q), x, u)
  {}

  /** A waiter of `k` is granted: if it is `u`, `u` was no stranger to `k`. */
  lemma GrantQueuedRecalls(s: State, k: Key, w: Waiter, q: seq<Waiter>, env: Env, x: Key, u: Uuid)
    requires k in s.t.locks && w in Queue(s.t, k) && w.composite.None? && forall v :: v in q ==> v in Queue(s.t, k)
    ensures Recalls(s.t, GrantQueued(s.(t := SetQueue(s.t, k, q)), k, w, env).t, x, u)
  {}

  lemma ServeRecalls(s: State, k: Key, env: Env, x: Key, u: Uuid)
    requires Queue(s.t, k) != [] && !Full(s.t, k)
    ensures Recalls(s.t, ServeNext(s, k, env).t, x, u)
  {
    var (w, rest) := NextWaiter(Queue(s.t, k), env.live);
    NextWaiterFrom(Queue(s.t, k), env.live);
    if w.composite.Some? {
      var s1 := s.(t := SetQueue(s.t, k, rest));
      PopRecalls(s.t, k, rest, x, u);
      RetryRecalls(s1, w, env, x, u);
      RecallsTransitive(s.t, s1.t, ServeNext(s, k, env).t, x, u);
    } else {
      GrantQueuedRecalls(s, k, w, rest, env, x, u);
    }
  }

  lemma {:induction false} DrainRecalls(s: State, k: Key, env: Env, x: Key, u: Uuid)
    ensures Recalls(s.t, Drain(s, k, env).t, x, u)
    decreases |Queue(s.t, k)|
  {
    if Queue(s.t, k) != [] && !Full(s.t, k) {
      ServeRecalls(s, k, env, x, u);
      DrainRecalls(ServeNext(s, k, env), k, env, x, u);
      RecallsTransitive(s.t, ServeNext(s, k, env).t, Drain(s, k, env).t, x, u);
    }
  }

  lemma EnsureRecalls(s: State, s1: State, k: Key, gone: Option<Uuid>, env: Env, x: Key, u: Uuid)
    requires k in s1.t.locks && Recalls(s.t, s1.t, x, u)
    ensures Recalls(s.t, EnsureNewLockHolder(s1, k, gone, env).t, x, u)
  {
    var t1 := DropGone(s1.t, k, gone);
    DropRecalls(s1.t, k, if gone.Some? then gone.value else u, x, u);
    DrainRecalls(s1.(t := t1), k, env, x, u);
    MarkRecalls(t1, k, env, x, u);
    RecallsTransitive(s.t, s1.t, t1, x, u);
    RecallsTransitive(s.t, t1, EnsureNewLockHolder(s1, k, gone, env).t, x, u);
  }

  /** The request is the unforced unlock of `u` at `x`. */
  predicate Claims(req: UnlockReq, x: Key, u: Uuid) {
    !req.force && req.target == Some(u) && req.key == x
  }

  lemma FreeingRecalls(t: Table, req: UnlockReq, x: Key, u: Uuid)
    requires req.key in t.locks && Freeing(t, req).Some? && !Claims(req, x, u)
    ensures Recalls(t, Freeing(t, req).value, x, u) && req.key in Freeing(t, req).value.locks
  {}

  /** Every unlock that does not claim `u` at `x`. */
  lemma UnlockRecalls(s: State, from: Option<Ws>, req: UnlockReq, env: Env, x: Key, u: Uuid)
    requires !Claims(req, x, u)
    ensures Recalls(s.t, Unlock(s, from, req, env).t, x, u)
  {
    if req.key in s.t.locks && Freeing(s.t, req).Some? {
      FreeingRecalls(s.t, req, x, u);
      UnlockAnswers(s, from, req, env);
      EnsureRecalls(s, Answered(s, from, req, env), req.key, req.target, env, x, u);
    }
  }

  lemma ReleaseMemberRecalls(t: Table, k: Key, v: Uuid, x: Key, u: Uuid)
    ensures Recalls(t, ReleaseMember(t, k, v), x, u)
  {}

  lemma {:induction false} ReleaseMembersRecalls(s: State, ks: seq<Key>, us: map<Key, Uuid>, env: Env, x: Key, u: Uuid)
    ensures Recalls(s.t, ReleaseMembers(s, ks, us, env).t, x, u)
    decreases |ks|
  {
    if ks != [] {
      var k := ks[0];
      if k in us && k in s.t.locks {
        var s1 := s.(t := ReleaseMember(s.t, k, us[k]));
        var s2 := EnsureNewLockHolder(s1, k, Some(us[k]), env);
        ReleaseMemberRecalls(s.t, k, us[k], x, u);
        EnsureRecalls(s, s1, k, Some(us[k]), env, x, u);
        ReleaseMembersRecalls(s2, ks[1..], us, env, x, u);
        RecallsTransitive(s.t, s2.t, ReleaseMembers(s, ks, us, env).t, x, u);
      } else {
        ReleaseMembersRecalls(s, ks[1..], us, env, x, u);
      }
    }
  }

  lemma TimeOutRecalls(t: Table, k: Key, v: Uuid, x: Key, u: Uuid)
    ensures Recalls(t, DropRow(t, v), x, u)
    ensures v in Holders(t, k) ==> Recalls(t, TimeOut(DropRow(t, v), k, v), x, u)
  {}

  lemma TimeOutRemembers(t: Table, k: Key, v: Uuid)
    requires k in t.locks
    ensures Late(TimeOut(DropRow(t, v), k, v), k, v)
  {}

  lemma EvictRecalls(s: State, v: Uuid, k: Key, env: Env, x: Key, u: Uuid)
    ensures Recalls(s.t, Evict(s, v, k, env).t, x, u)
  {
    TimeOutRecalls(s.t, k, v, x, u);
    if v in Holders(s.t, k) {
      EnsureRecalls(s, s.(t := TimeOut(DropRow(s.t, v), k, v)), k, Some(v), env, x, u);
    }
  }

  lemma EvictRemembers(s: State, v: Uuid, k: Key, env: Env)
    requires v in Holders(s.t, k)
    ensures Late(Evict(s, v, k, env).t, k, v)
  {
    var s1 := s.(t := TimeOut(DropRow(s.t, v), k, v));
    TimeOutRemembers(s.t, k, v);
    DropRecalls(s1.t, k, v, k, v);
    EnsureRecalls(s1, s1, k, Some(v), env, k, v);
  }

  lemma {:induction false} SweepRecalls(s: State, expired: seq<(Uuid, Key)>, env: Env, x: Key, u: Uuid)
    ensures Recalls(s.t, Sweep(s, expired, env).t, x, u)
    decreases |expired|
  {
    if expired != [] {
      var s1 := Evict(s, expired[0].0, expired[0].1, env);
      EvictRecalls(s, expired[0].0, expired[0].1, env, x, u);
      SweepRecalls(s1, expired[1..], env, x, u);
      RecallsTransitive(s.t, s1.t, Sweep(s, expired, env).t, x, u);
    }
  }

  /** Whom the sweep evicts, the key remembers. */
  lemma {:induction false} SweepRemembers(s: State, expired: seq<(Uuid, Key)>, env: Env, u: Uuid, k: Key,
                                          prior: iset<Uuid>)
    requires Sound(s, {}) && NewWhole(s, prior) && Due(s.t, expired, prior) && (u, k) in expired
    ensures Late(Sweep(s, expired, env).t, k, u)
    decreases |expired|
  {
    var s1 := Evict(s, expired[0].0, expired[0].1, env);
    assert expired[0] in expired;
    assert DueHolder(s.t, expired[0].0, expired[0].1, prior);
    EvictSound(s, expired[0].0, expired[0].1, env, prior);
    DueStill(s.t, s1.t, expired, env, prior);
    if expired[0] == (u, k) {
      EvictRemembers(s, u, k, env);
      SweepRecalls(s1, expired[1..], env, k, u);
    } else {
      SweepRemembers(s1, expired[1..], env, u, k, prior);
    }
  }

  lemma {:induction false} UnlockOwnedRecalls(s: State, k: Key, us: seq<Uuid>, ws: Ws, env: Env, x: Key, u: Uuid)
    ensures Recalls(s.t, UnlockOwned(s, k, us, ws, env).t, x, u)
    decreases |us|
  {
    if us != [] {
      var req := UnlockReq(k, None, Some(us[0]), true);
      var s1 := Unlock(s, Some(ws), req, env);
      UnlockRecalls(s, Some(ws), req, env, x, u);
      UnlockOwnedRecalls(s1, k, us[1..], ws, env, x, u);
      RecallsTransitive(s.t, s1.t, UnlockOwned(s, k, us, ws, env).t, x, u);
    }
  }

  lemma ScrubQueueRecalls(t: Table, k: Key, uuids: set<Uuid>, ws: Ws, x: Key, u: Uuid)
    requires k in t.locks
    ensures Recalls(t, ScrubQueue(t, k, uuids, ws), x, u)
  {
    RemoveAllFrom(Queue(t, k), uuids);
  }

  lemma {:induction false} ScrubKeysRecalls(s: State, visits: Visits, uuids: set<Uuid>, ws: Ws, env: Env, x: Key,
                                            u: Uuid)
    ensures Recalls(s.t, ScrubKeys(s, visits, uuids, ws, env).t, x, u)
    decreases |visits|
  {
    if visits != [] {
      var (k, us) := visits[0];
      if k in s.t.locks {
        var s1 := s.(t := ScrubQueue(s.t, k, uuids, ws));
        var s2 := ScrubKey(s, k, uuids, us, ws, env);
        ScrubQueueRecalls(s.t, k, uuids, ws, x, u);
        UnlockOwnedRecalls(s1, k, us, ws, env, x, u);
        ScrubKeysRecalls(s2, visits[1..], uuids, ws, env, x, u);
        RecallsTransitive(s.t, s1.t, s2.t, x, u);
        RecallsTransitive(s.t, s2.t, ScrubKeys(s, visits, uuids, ws, env).t, x, u);
      } else {
        ScrubKeysRecalls(s, visits[1..], uuids, ws, env, x, u);
      }
    }
  }

  lemma AskRecalls(s: State, w: Waiter, wait: bool, env: Env, x: Key, u: Uuid)
    requires w.composite.Some?
    ensures Recalls(s.t, AskMany(s, w, wait, env).t, x, u)
  {
    var a := TryAll(s.t, w, env);
    TryAllRecalls(s.t, w, env, x, u);
    if a.contended.Some? { EnqueueRecalls(a.t, a.contended.value, w, x, u); }
  }

  // ----- Lock requests -----

  /** Nothing is remembered or forgotten, and nobody but the request's uuid comes to its key. */
  ghost predicate SameMarks(t: Table, t': Table, k: Key, u: Uuid) {
    && (k in t.locks ==> k in t'.locks) && (Late(t', k, u) <==> Late(t, k, u))
    && (Foreign(t, k, u) ==> Foreign(t', k, u))
  }

  lemma SetMaxMarks(t: Table, x: Key, m: RawMax, k: Key, u: Uuid)
    requires !BadMax(m)
    ensures SameMarks(t, SetMax(t, x, m), k, u)
  {}

  lemma MaterializeMarks(t: Table, x: Key, max: Pos, env: Env, k: Key, u: Uuid)
    ensures SameMarks(t, Materialize(t, x, max, env), k, u)
  {}

  lemma DecideMarks(s: State, ws: Ws, req: LockReq, ttl: Millis, env: Env, k: Key, u: Uuid)
    requires req.key in s.t.locks
    ensures var t' := Decide(s, ws, req, ttl, env).t;
      (k in s.t.locks ==> k in t'.locks) && (Late(t', k, u) <==> Late(s.t, k, u))
    ensures req.key != k || req.uuid != u ==> SameMarks(s.t, Decide(s, ws, req, ttl, env).t, k, u)
  {
    if !Full(s.t, req.key) { GrantNowMarks(s, ws, req, ttl, env, k, u); } else { JoinMarks(s.t, ws, req, ttl, k, u); }
  }

  lemma GrantNowMarks(s: State, ws: Ws, req: LockReq, ttl: Millis, env: Env, k: Key, u: Uuid)
    requires req.key in s.t.locks
    ensures var t' := GrantNow(s, ws, req, ttl, env).t;
      (k in s.t.locks ==> k in t'.locks) && (Late(t', k, u) <==> Late(s.t, k, u))
    ensures req.key != k || req.uuid != u ==> SameMarks(s.t, GrantNow(s, ws, req, ttl, env).t, k, u)
  {}

  lemma JoinMarks(t: Table, ws: Ws, req: LockReq, ttl: Millis, k: Key, u: Uuid)
    requires req.key in t.locks
    ensures var t' := JoinQueue(t, ws, req, ttl);
      (k in t.locks ==> k in t'.locks) && (Late(t', k, u) <==> Late(t, k, u))
    ensures req.key != k || req.uuid != u ==> SameMarks(t, JoinQueue(t, ws, req, ttl), k, u)
  {
    RemoveAllFrom(Queue(t, req.key), {req.uuid});
  }

  /** The request deletes the idle lock object of `k`. */
  ghost predicate DeletesIdle(s: State, req: LockReq, env: Env, k: Key) {
    && !BadMax(req.max) && req.key != k && s.lockCounts >= 3
    && k in s.t.locks && Idle(s.t.locks[k], env.now)
  }

  lemma RegisterMarks(s: State, ws: Ws, req: LockReq, env: Env, k: Key, u: Uuid)
    requires !BadMax(req.max)
    ensures var t1 := Register(s, ws, req, env).t;
      && t1.minted == s.t.minted
      && (DeletesIdle(s, req, env, k) ==> k !in t1.locks) && (!DeletesIdle(s, req, env, k) ==> SameMarks(s.t, t1, k, u))
      && (Foreign(s.t, k, u) ==> Foreign(t1, k, u))
  {}

  lemma LockMarks(s: State, ws: Ws, req: LockReq, env: Env, k: Key, u: Uuid)
    ensures var t' := Lock(s, ws, req, env).t;
      && t'.minted == s.t.minted
      && (DeletesIdle(s, req, env, k) ==> k !in t'.locks)
      && (!DeletesIdle(s, req, env, k) && Late(s.t, k, u) ==> Late(t', k, u))
      && (Foreign(s.t, k, u) && (req.key != k || req.uuid != u || BadMax(req.max)) ==> Foreign(t', k, u))
  {
    if !BadMax(req.max) {
      var s1, ttl := Register(s, ws, req, env), SingleTtl(s, req.ttl);
      RegisterMarks(s, ws, req, env, k, u);
      if req.key in s1.t.locks {
        SetMaxMarks(s1.t, req.key, req.max, k, u);
        var s2 := s1.(t := SetMax(s1.t, req.key, req.max));
        DecideMarks(s2, ws, req, ttl, env, k, u);
        DecideElsewhere(s2, ws, req, ttl, env, k);
      } else {
        var m: Pos := if req.max.Int? then req.max.n else 1;
        MaterializeMarks(s1.t, req.key, m, env, k, u);
        var s2 := s1.(t := Materialize(s1.t, req.key, m, env));
        GrantNowMarks(s2, ws, req, ttl, env, k, u);
        GrantElsewhere(s2, ws, req, ttl, env, k);
      }
    }
  }

  lemma DecideElsewhere(s: State, ws: Ws, req: LockReq, ttl: Millis, env: Env, k: Key)
    requires req.key in s.t.locks
    ensures var t' := Decide(s, ws, req, ttl, env).t;
      t'.minted == s.t.minted && (k in t'.locks <==> k in s.t.locks)
  {
    if !Full(s.t, req.key) { GrantElsewhere(s, ws, req, ttl, env, k); } else { JoinElsewhere(s.t, ws, req, ttl, k); }
  }

  lemma JoinElsewhere(t: Table, ws: Ws, req: LockReq, ttl: Millis, k: Key)
    requires req.key in t.locks
    ensures var t' := JoinQueue(t, ws, req, ttl);
      t'.minted == t.minted && (k in t'.locks <==> k in t.locks)
  {}

  lemma GrantElsewhere(s: State, ws: Ws, req: LockReq, ttl: Millis, env: Env, k: Key)
    requires req.key in s.t.locks
    ensures var t' := GrantNow(s, ws, req, ttl, env).t;
      t'.minted == s.t.minted && (k in t'.locks <==> k in s.t.locks)
  {}

  // ----- Every step -----

  ghost predicate Forgets(s: State, e: Event, env: Env, k: Key) {
    !Dropped(s, e) && e.LockEvent? && DeletesIdle(s, e.lock, env, k)
  }

  ghost predicate ClaimsIn(s: State, e: Event, k: Key, u: Uuid) {
    !Dropped(s, e) && e.UnlockEvent? && Claims(e.unlock, k, u)
  }

  ghost predicate AsksIn(s: State, e: Event, k: Key, u: Uuid) {
    !Dropped(s, e) && e.LockEvent? && e.lock.key == k && e.lock.uuid == u
  }

  /** Any step but a lock request. */
  lemma OtherRecalls(s: State, e: Event, env: Env, k: Key, u: Uuid)
    requires !Dropped(s, e) && !e.LockEvent? && !ClaimsIn(s, e, k, u)
    ensures Recalls(s.t, Step(s, e, env).t, k, u)
  {
    match e {
      case UnlockEvent(from, req) => UnlockRecalls(s, from, req, env, k, u);
      case AcquireEvent(ws, req) => AcquireRecalls(s, ws, req, env, k, u);
      case ReleaseEvent(ws, req) =>
        if req.lockUuid.Some? && req.lockUuid.value in s.composites {
          var c := s.composites[req.lockUuid.value];
          ReleaseMembersRecalls(s, c.keys, c.holderUuids, env, k, u);
        }
      case TickEvent(_, expired) => SweepRecalls(s, expired, env, k, u);
      case CloseEvent(ws, visits) => ScrubKeysRecalls(Unplugged(s, ws), visits, Leaving(s, ws), ws, env, k, u);
      case GiveUpEvent(_, x, v) =>
        RemoveAllFrom(Queue(s.t, x), {v});
        if x in s.t.locks { PopRecalls(s.t, x, Remove(Queue(s.t, x), v), k, u); }
    }
  }

  lemma AcquireRecalls(s: State, ws: Ws, req: ManyReq, env: Env, k: Key, u: Uuid)
    ensures Recalls(s.t, AcquireMany(s, ws, req, env).t, k, u)
  {
    if !BadKeys(req.keys) {
      var ask := CompositeAsk(RequestedKeys(req.keys.entries), Minted(s.t.minted));
      AskRecalls(DrawOne(s), Waiter(ws, req.uuid, ManyTtl(s, req.ttl), Some(ask)), req.wait, env, k, u);
      assert Recalls(s.t, DrawOne(s).t, k, u);
      RecallsTransitive(s.t, DrawOne(s).t, AcquireMany(s, ws, req, env).t, k, u);
    }
  }

  /** A step that does not unlock it leaves a remembered uuid remembered if and only if it does not delete
      the key's idle lock object; and a uuid foreign to the key stays so unless it asks for the key. */
  lemma StepRecalls(s: State, e: Event, env: Env, k: Key, u: Uuid)
    requires !ClaimsIn(s, e, k, u)
    ensures var t' := Step(s, e, env).t;
      && s.t.minted <= t'.minted && (Forgets(s, e, env, k) ==> k !in t'.locks)
      && (Late(s.t, k, u) ==> (Late(t', k, u) <==> !Forgets(s, e, env, k)))
      && (Foreign(s.t, k, u) && !AsksIn(s, e, k, u) ==> Foreign(t', k, u))
  {
    if !Dropped(s, e) {
      if e.LockEvent? { LockMarks(s, e.ws, e.lock, env, k, u); } else { OtherRecalls(s, e, env, k, u); }
    }
  }

  // ----- Every run -----

  /** No step of the run unlocks `u` at `k`. */
  ghost predicate Unclaimed(s: State, ins: seq<Input>, k: Key, u: Uuid)
    decreases |ins|
  {
    ins != [] ==>
      !ClaimsIn(s, ins[0].event, k, u) && Unclaimed(Step(s, ins[0].event, ins[0].env), ins[1..], k, u)
  }

  /** No step of the run asks for `k` under `u`. */
  ghost predicate Unasked(s: State, ins: seq<Input>, k: Key, u: Uuid)
    decreases |ins|
  {
    ins != [] ==>
      !AsksIn(s, ins[0].event, k, u) && Unasked(Step(s, ins[0].event, ins[0].env), ins[1..], k, u)
  }

  /** Some step of the run deletes the idle lock object of `k`. */
  ghost predicate Deletes(s: State, ins: seq<Input>, k: Key)
    decreases |ins|
  {
    ins != [] &&
      (Forgets(s, ins[0].event, ins[0].env, k) || Deletes(Step(s, ins[0].event, ins[0].env), ins[1..], k))
  }

  lemma {:induction false} RunForeign(s: State, ins: seq<Input>, k: Key, u: Uuid)
    requires Foreign(s.t, k, u) && Unclaimed(s, ins, k, u) && Unasked(s, ins, k, u)
    ensures Foreign(Run(s, ins).t, k, u)
    decreases |ins|
  {
    if ins != [] {
      StepRecalls(s, ins[0].event, ins[0].env, k, u);
      RunForeign(Step(s, ins[0].event, ins[0].env), ins[1..], k, u);
    }
  }

  lemma {:induction false} RunRecalls(s: State, ins: seq<Input>, k: Key, u: Uuid)
    requires Late(s.t, k, u) && Unclaimed(s, ins, k, u) && (u.Minted? ==> u.n < s.t.minted)
    ensures !Deletes(s, ins, k) ==> Late(Run(s, ins).t, k, u)
    ensures Deletes(s, ins, k) && Unasked(s, ins, k, u) ==> Foreign(Run(s, ins).t, k, u)
    decreases |ins|
  {
    if ins != [] {
      var s1 := Step(s, ins[0].event, ins[0].env);
      StepRecalls(s, ins[0].event, ins[0].env, k, u);
      if !Forgets(s, ins[0].event, ins[0].env, k) {
        RunRecalls(s1, ins[1..], k, u);
      } else if Unasked(s, ins, k, u) {
        RunForeign(s1, ins[1..], k, u);
      }
    }
  }

  // ----- What an unlock is told -----

  /** What an unlock is told: that it unlocked, if the key has no lock object, if it names a holder, if it
      forces without a name, or, unforced, if it names a hold that was evicted or released. */
  ghost predicate ToldUnlocked(t: Table, req: UnlockReq) {
    || req.key !in t.locks
    || (req.target.Some? && req.target.value in Holders(t, req.key))
    || (req.force && req.target.None?)
    || (!req.force && req.target.Some? && Late(t, req.key, req.target.value))
  }

  /** The first frame an unlock sends is the answer `unlocked`. */
  ghost predicate Told(s: State, s': State, ws: Ws, id: Uuid, k: Key, unlocked: bool) {
    |s'.out| > |s.out| && s'.out[|s.out|] == UnlockFrame(ws, id, k, |Queue(s.t, k)|, unlocked)
  }

  /** The answer comes first, before anybody is granted what was freed. */
  lemma UnlockAnswer(s: State, ws: Ws, req: UnlockReq, env: Env)
    requires ws in env.live && req.uuid.Some?
    ensures Told(s, Unlock(s, Some(ws), req, env), ws, req.uuid.value, req.key, ToldUnlocked(s.t, req))
  {
    if req.key in s.t.locks && Freeing(s.t, req).Some? {
      UnlockAnswers(s, Some(ws), req, env);
      AnsweredFirst(s, ws, req, env);
      EnsureSends(Answered(s, Some(ws), req, env), req.key, req.target, env);
    }
  }

  lemma AnsweredFirst(s: State, ws: Ws, req: UnlockReq, env: Env)
    requires ws in env.live && req.uuid.Some? && req.key in s.t.locks && Freeing(s.t, req).Some?
    ensures Told(s, Answered(s, Some(ws), req, env), ws, req.uuid.value, req.key, true)
  {}

  lemma {:induction false} DrainSends(s: State, k: Key, env: Env)
    ensures s.out <= Drain(s, k, env).out
    decreases |Queue(s.t, k)|
  {
    if Queue(s.t, k) != [] && !Full(s.t, k) {
      ServeSends(s, k, env);
      DrainSends(ServeNext(s, k, env), k, env);
    }
  }

  lemma ServeSends(s: State, k: Key, env: Env)
    requires Queue(s.t, k) != [] && !Full(s.t, k)
    ensures s.out <= ServeNext(s, k, env).out
  {}

  lemma EnsureSends(s: State, k: Key, gone: Option<Uuid>, env: Env)
    requires k in s.t.locks
    ensures s.out <= EnsureNewLockHolder(s, k, gone, env).out
  {
    DrainSends(s.(t := DropGone(s.t, k, gone)), k, env);
  }

  /** A late unlock, after anything that does not unlock its uuid before: it is told that it unlocked if the
      key's lock object was never deleted; and if nobody asks for the key under that uuid again, then
      exactly if it was not deleted and made again. */
  lemma LateUnlockTold(s: State, ins: seq<Input>, k: Key, u: Uuid, ws: Ws, id: Uuid, last: Env)
    requires Late(s.t, k, u) && Unclaimed(s, ins, k, u) && (u.Minted? ==> u.n < s.t.minted) && ws in last.live
    ensures var s2 := Run(s, ins);
      var s3 := Unlock(s2, Some(ws), UnlockReq(k, Some(id), Some(u), false), last);
      && (!Deletes(s, ins, k) ==> Told(s2, s3, ws, id, k, true))
      && (Unasked(s, ins, k, u) ==> Told(s2, s3, ws, id, k, !(Deletes(s, ins, k) && k in s2.t.locks)))
  {
    RunRecalls(s, ins, k, u);
    UnlockAnswer(Run(s, ins), ws, UnlockReq(k, Some(id), Some(u), false), last);
  }

  /** Swept, then anything that does not unlock it, then unlocked. */
  lemma SweptThenUnlocked(s: State, now: int, expired: seq<(Uuid, Key)>, env: Env, ins: seq<Input>, k: Key, u: Uuid,
                          ws: Ws, id: Uuid, last: Env)
    requires Sound(s, {}) && ExpiredRows(s.t, now, expired) && (u, k) in expired
    requires Unclaimed(Sweep(s, expired, env), ins, k, u) && ws in last.live
    ensures var s1 := Sweep(s, expired, env);
      var s2 := Run(s1, ins);
      var s3 := Unlock(s2, Some(ws), UnlockReq(k, Some(id), Some(u), false), last);
      && (!Deletes(s1, ins, k) ==> Told(s2, s3, ws, id, k, true))
      && (Unasked(s1, ins, k, u) ==> Told(s2, s3, ws, id, k, !(Deletes(s1, ins, k) && k in s2.t.locks)))
  {
    SweptLate(s, now, expired, env, k, u);
    LateUnlockTold(Sweep(s, expired, env), ins, k, u, ws, id, last);
  }

  lemma SweptLate(s: State, now: int, expired: seq<(Uuid, Key)>, env: Env, k: Key, u: Uuid)
    requires Sound(s, {}) && ExpiredRows(s.t, now, expired) && (u, k) in expired
    ensures Late(Sweep(s, expired, env).t, k, u) && (u.Minted? ==> u.n < Sweep(s, expired, env).t.minted)
  {
    forall e | e in expired ensures DueHolder(s.t, e.0, e.1, Recorded(s)) {
      assert (e.0, e.1) in expired;
      assert e.0 in Holders(s.t, s.t.deadlines[e.0].key);
      assert TagAgrees(s, e.1, e.0);
    }
    SweepRemembers(s, expired, env, u, k, Recorded(s));
    SweepRecalls(s, expired, env, k, u);
    assert DueHolder(s.t, u, k, Recorded(s));
  }
}

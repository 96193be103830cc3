/** Every step of the hardened broker keeps its fencing authority, and so does every run, through
    any number of crashes and restarts. */
module FencedRuns {
  import opened BrokerTypes
  import opened BrokerSpec
  import opened BrokerSteps
  import opened Events
  import opened Fencing

  /** Holders, waiters or marks go, and at most a frame without a token is sent. */
  lemma ShedFollows(s: State, s': State, now: int)
    requires Trusted(s) && Sheds(s.t, s'.t) && Says(s, s')
    ensures Follows(s, s', now)
  {
    ShedAuthority(s.t, s'.t, now);
    FollowsBy(s, s', now);
  }

  lemma SendFollows(s: State, env: Env, f: Frame)
    requires Trusted(s) && Vouched(f, Log(s.t))
    ensures Follows(s, Send(s, env, f), env.now)
  {
    DropSheds(s.t, Key([]), Minted(0));
    ShedFollows(s, Send(s, env, f), env.now);
  }

  // ----- Serving -----

  lemma SetQueueSheds(t: Table, k: Key, q: seq<Waiter>)
    requires k in t.locks
    ensures Sheds(t, SetQueue(t, k, q))
  {}

  lemma EnqueueSheds(t: Table, k: Key, w: Waiter)
    ensures Sheds(t, Enqueue(t, k, w))
  {}

  /** A grant and its reply. */
  lemma ReplyGranted(s: State, t': Table, s': State, env: Env, f: Frame)
    requires Trusted(s) && Authority(t') && Grows(s.t, t', env.now) && s' == Send(s.(t := t'), env, f)
    requires f.LockFrame? && f.acquired
    requires f.token == Some(TokenOf(t', f.key)) && Mint(f.key, TokenOf(t', f.key)) in Log(t')
    ensures Follows(s, s', env.now)
  {
    assert Vouched(f, Log(t'));
    FollowsBy(s, s', env.now);
  }

  lemma GrantQueuedFollows(s: State, k: Key, w: Waiter, env: Env)
    requires k in s.t.locks && Trusted(s) && !Full(s.t, k)
    ensures Follows(s, GrantQueued(s, k, w, env), env.now)
  {
    var t1 := Grant(s.t, k, w.uuid, w.ws, w.ttl, None, env);
    GrantAuthority(s.t, k, w.uuid, w.ws, w.ttl, None, env);
    ReplyGranted(s, t1, GrantQueued(s, k, w, env), env,
      LockFrame(w.ws, w.uuid, k, |Queue(s.t, k)|, true, Some(TokenOf(t1, k))));
  }

  lemma AnnounceFollows(s: State, w: Waiter, a: Attempt, env: Env)
    requires w.composite.Some? && Trusted(s) && Authority(a.t) && Grows(s.t, a.t, env.now)
    requires MintsOf(a)
    ensures Follows(s, Announce(s, w, a, env), env.now)
  {
    FollowsBy(s, Announce(s, w, a, env), env.now);
  }

  lemma RetryFollows(s: State, w: Waiter, env: Env)
    requires w.composite.Some? && Trusted(s)
    ensures Follows(s, RetryMany(s, w, env), env.now)
  {
    var a := TryAll(s.t, w, env);
    TryAllAuthority(s.t, w, env);
    if a.contended.None? {
      AnnounceFollows(s, w, a, env);
    } else {
      var s1 := s.(t := a.t);
      FollowsBy(s, s1, env.now);
      RequeueFollows(s1, a.contended.value, w, env);
      FollowsTransitive(s, s1, s1.(t := Enqueue(a.t, a.contended.value, w)), env.now);
    }
  }

  lemma RequeueFollows(s: State, k: Key, w: Waiter, env: Env)
    requires Trusted(s)
    ensures Follows(s, s.(t := Enqueue(s.t, k, w)), env.now)
  {
    EnqueueSheds(s.t, k, w);
    ShedFollows(s, s.(t := Enqueue(s.t, k, w)), env.now);
  }

  lemma ServeFollows(s: State, k: Key, env: Env)
    requires Queue(s.t, k) != [] && !Full(s.t, k) && Trusted(s)
    ensures Follows(s, ServeNext(s, k, env), env.now)
  {
    var (w, rest) := NextWaiter(Queue(s.t, k), env.live);
    var s1 := s.(t := SetQueue(s.t, k, rest));
    SetQueueSheds(s.t, k, rest);
    ShedFollows(s, s1, env.now);
    if w.composite.Some? { RetryFollows(s1, w, env); } else { GrantQueuedFollows(s1, k, w, env); }
    FollowsTransitive(s, s1, ServeNext(s, k, env), env.now);
  }

  lemma {:induction false} DrainFollows(s: State, k: Key, env: Env)
    requires Trusted(s)
    ensures Follows(s, Drain(s, k, env), env.now)
    decreases |Queue(s.t, k)|
  {
    if Queue(s.t, k) != [] && !Full(s.t, k) {
      ServeFollows(s, k, env);
      DrainFollows(ServeNext(s, k, env), k, env);
      FollowsTransitive(s, ServeNext(s, k, env), Drain(s, k, env), env.now);
    }
  }

  lemma DropGoneSheds(t: Table, k: Key, gone: Option<Uuid>, env: Env)
    ensures Sheds(t, DropGone(t, k, gone))
    ensures k in t.locks ==> Sheds(t, MarkEmptied(t, k, env))
  {}

  lemma EnsureFollows(s: State, k: Key, gone: Option<Uuid>, env: Env)
    requires k in s.t.locks && Trusted(s)
    ensures Follows(s, EnsureNewLockHolder(s, k, gone, env), env.now)
  {
    var s1 := s.(t := DropGone(s.t, k, gone));
    DropGoneSheds(s.t, k, gone, env);
    ShedFollows(s, s1, env.now);
    ServeOrMark(s, s1, k, env, EnsureNewLockHolder(s, k, gone, env));
  }

  lemma ServeOrMark(s: State, s1: State, k: Key, env: Env, s': State)
    requires k in s1.t.locks && Follows(s, s1, env.now)
    requires s' == Drain(s1, k, env) || s' == s1.(t := MarkEmptied(s1.t, k, env))
    ensures Follows(s, s', env.now)
  {
    DropGoneSheds(s1.t, k, None, env);
    if s' == Drain(s1, k, env) { DrainFollows(s1, k, env); } else { ShedFollows(s1, s', env.now); }
    FollowsTransitive(s, s1, s', env.now);
  }

  /** Take something from `k`, then serve it. */
  lemma FreeFollows(s: State, s1: State, k: Key, gone: Option<Uuid>, env: Env)
    requires k in s1.t.locks && Trusted(s) && Follows(s, s1, env.now)
    ensures Follows(s, EnsureNewLockHolder(s1, k, gone, env), env.now)
  {
    EnsureFollows(s1, k, gone, env);
    FollowsTransitive(s, s1, EnsureNewLockHolder(s1, k, gone, env), env.now);
  }

  // ----- The releasing steps -----

  lemma FreeingSheds(t: Table, req: UnlockReq)
    requires req.key in t.locks && Freeing(t, req).Some?
    ensures Sheds(t, Freeing(t, req).value) && req.key in Freeing(t, req).value.locks
  {}

  lemma ReplyFollows(s: State, from: Option<Ws>, req: UnlockReq, count: nat, unlocked: bool, env: Env)
    requires Trusted(s)
    ensures Follows(s, ReplyUnlock(s, from, req, count, unlocked, env), env.now)
  {
    if from.Some? && req.uuid.Some? {
      SendFollows(s, env, UnlockFrame(from.value, req.uuid.value, req.key, count, unlocked));
    } else {
      DropSheds(s.t, req.key, Minted(0));
      ShedFollows(s, s, env.now);
    }
  }

  lemma ReplyTable(s: State, from: Option<Ws>, req: UnlockReq, count: nat, unlocked: bool, env: Env)
    ensures ReplyUnlock(s, from, req, count, unlocked, env).t == s.t
  {}

  lemma UnlockFollows(s: State, from: Option<Ws>, req: UnlockReq, env: Env)
    requires Trusted(s)
    ensures Follows(s, Unlock(s, from, req, env), env.now)
  {
    var s0 := Forget(s, from, req.target);
    DropSheds(s.t, req.key, Minted(0));
    ShedFollows(s, s0, env.now);
    if req.key !in s.t.locks {
      ReplyFollows(s0, from, req, 0, true, env);
    } else if Freeing(s.t, req).None? {
      ReplyFollows(s0, from, req, |Queue(s.t, req.key)|, false, env);
    } else {
      UnlockFreedFollows(s0, from, req, env);
    }
    FollowsTransitive(s, s0, Unlock(s, from, req, env), env.now);
  }

  lemma UnlockFreedFollows(s0: State, from: Option<Ws>, req: UnlockReq, env: Env)
    requires Trusted(s0) && req.key in s0.t.locks && Freeing(s0.t, req).Some?
    ensures var s1 := s0.(t := Freeing(s0.t, req).value);
      var s2 := ReplyUnlock(s1, from, req, |Queue(s0.t, req.key)|, true, env);
      req.key in s2.t.locks && Follows(s0, EnsureNewLockHolder(s2, req.key, req.target, env), env.now)
  {
    var s1 := s0.(t := Freeing(s0.t, req).value);
    var s2 := ReplyUnlock(s1, from, req, |Queue(s0.t, req.key)|, true, env);
    FreeingSheds(s0.t, req);
    ShedFollows(s0, s1, env.now);
    ReplyFollows(s1, from, req, |Queue(s0.t, req.key)|, true, env);
    FollowsTransitive(s0, s1, s2, env.now);
    ReplyTable(s1, from, req, |Queue(s0.t, req.key)|, true, env);
    FreeFollows(s0, s2, req.key, req.target, env);
  }

  lemma ReleaseMemberSheds(t: Table, k: Key, u: Uuid)
    requires k in t.locks
    ensures Sheds(t, ReleaseMember(t, k, u)) && k in ReleaseMember(t, k, u).locks
  {}

  lemma {:induction false} ReleaseMembersFollows(s: State, ks: seq<Key>, us: map<Key, Uuid>, env: Env)
    requires Trusted(s)
    ensures Follows(s, ReleaseMembers(s, ks, us, env), env.now)
    decreases |ks|
  {
    DropSheds(s.t, Key([]), Minted(0));
    ShedFollows(s, s, env.now);
    if ks != [] {
      var k := ks[0];
      if k in us && k in s.t.locks {
        var s1 := s.(t := ReleaseMember(s.t, k, us[k]));
        var s2 := EnsureNewLockHolder(s1, k, Some(us[k]), env);
        ReleaseMemberSheds(s.t, k, us[k]);
        ShedFollows(s, s1, env.now);
        FreeFollows(s, s1, k, Some(us[k]), env);
        ReleaseMembersFollows(s2, ks[1..], us, env);
        FollowsTransitive(s, s2, ReleaseMembers(s, ks, us, env), env.now);
      } else {
        ReleaseMembersFollows(s, ks[1..], us, env);
      }
    }
  }

  lemma ReleaseFollows(s: State, ws: Ws, req: ReleaseReq, env: Env)
    requires Trusted(s)
    ensures Follows(s, ReleaseMany(s, ws, req, env), env.now)
  {
    if req.lockUuid.None? || req.lockUuid.value !in s.composites {
      SendFollows(s, env, ReleaseFrame(ws, req.uuid, false));
    } else {
      var c := s.composites[req.lockUuid.value];
      var s1 := ReleaseMembers(s, c.keys, c.holderUuids, env);
      var s2 := s1.(composites := s1.composites - {req.lockUuid.value});
      ReleaseMembersFollows(s, c.keys, c.holderUuids, env);
      DropSheds(s1.t, Key([]), Minted(0));
      ShedFollows(s1, s2, env.now);
      SendFollows(s2, env, ReleaseFrame(ws, req.uuid, true));
      FollowsTransitive(s, s1, s2, env.now);
      FollowsTransitive(s, s2, ReleaseMany(s, ws, req, env), env.now);
    }
  }

  lemma TimeOutSheds(t: Table, k: Key, u: Uuid)
    ensures Sheds(t, DropRow(t, u))
    ensures k in t.locks ==> Sheds(t, TimeOut(DropRow(t, u), k, u))
  {}

  lemma {:induction false} SweepFollows(s: State, expired: seq<(Uuid, Key)>, env: Env)
    requires Trusted(s)
    ensures Follows(s, Sweep(s, expired, env), env.now)
    decreases |expired|
  {
    DropSheds(s.t, Key([]), Minted(0));
    ShedFollows(s, s, env.now);
    if expired != [] {
      var s1 := Evict(s, expired[0].0, expired[0].1, env);
      EvictFollows(s, expired[0].0, expired[0].1, env);
      SweepFollows(s1, expired[1..], env);
      FollowsTransitive(s, s1, Sweep(s, expired, env), env.now);
    }
  }

  lemma EvictFollows(s: State, u: Uuid, k: Key, env: Env)
    requires Trusted(s)
    ensures Follows(s, Evict(s, u, k, env), env.now)
  {
    TimeOutSheds(s.t, k, u);
    if u in Holders(s.t, k) {
      var s1 := s.(t := TimeOut(DropRow(s.t, u), k, u));
      ShedFollows(s, s1, env.now);
      FreeFollows(s, s1, k, Some(u), env);
    } else {
      ShedFollows(s, s.(t := DropRow(s.t, u)), env.now);
    }
  }

  lemma {:induction false} UnlockOwnedFollows(s: State, k: Key, us: seq<Uuid>, ws: Ws, env: Env)
    requires Trusted(s)
    ensures Follows(s, UnlockOwned(s, k, us, ws, env), env.now)
    decreases |us|
  {
    DropSheds(s.t, k, Minted(0));
    ShedFollows(s, s, env.now);
    if us != [] {
      var s1 := Unlock(s, Some(ws), UnlockReq(k, None, Some(us[0]), true), env);
      UnlockFollows(s, Some(ws), UnlockReq(k, None, Some(us[0]), true), env);
      UnlockOwnedFollows(s1, k, us[1..], ws, env);
      FollowsTransitive(s, s1, UnlockOwned(s, k, us, ws, env), env.now);
    }
  }

  lemma ScrubSheds(t: Table, k: Key, uuids: set<Uuid>, ws: Ws)
    requires k in t.locks
    ensures Sheds(t, ScrubQueue(t, k, uuids, ws))
  {}

  lemma {:induction false} ScrubKeysFollows(s: State, visits: Visits, uuids: set<Uuid>, ws: Ws, env: Env)
    requires Trusted(s)
    ensures Follows(s, ScrubKeys(s, visits, uuids, ws, env), env.now)
    decreases |visits|
  {
    DropSheds(s.t, Key([]), Minted(0));
    ShedFollows(s, s, env.now);
    if visits != [] {
      var (k, us) := visits[0];
      var s1 := if k in s.t.locks then ScrubKey(s, k, uuids, us, ws, env) else s;
      if k in s.t.locks { ScrubKeyFollows(s, k, uuids, us, ws, env); }
      ScrubKeysFollows(s1, visits[1..], uuids, ws, env);
      FollowsTransitive(s, s1, ScrubKeys(s, visits, uuids, ws, env), env.now);
    }
  }

  lemma ScrubKeyFollows(s: State, k: Key, uuids: set<Uuid>, us: seq<Uuid>, ws: Ws, env: Env)
    requires k in s.t.locks && Trusted(s)
    ensures Follows(s, ScrubKey(s, k, uuids, us, ws, env), env.now)
  {
    var s1 := s.(t := ScrubQueue(s.t, k, uuids, ws));
    ScrubSheds(s.t, k, uuids, ws);
    ShedFollows(s, s1, env.now);
    UnlockOwnedFollows(s1, k, us, ws, env);
    FollowsTransitive(s, s1, ScrubKey(s, k, uuids, us, ws, env), env.now);
  }

  // ----- The requesting steps -----

  lemma GrantNowFollows(s: State, ws: Ws, req: LockReq, ttl: Millis, env: Env)
    requires req.key in s.t.locks && Trusted(s) && !Full(s.t, req.key)
    ensures Follows(s, GrantNow(s, ws, req, ttl, env), env.now)
  {
    var t1 := Grant(s.t, req.key, req.uuid, ws, ttl, None, env);
    GrantAuthority(s.t, req.key, req.uuid, ws, ttl, None, env);
    ReplyGranted(s, t1, GrantNow(s, ws, req, ttl, env), env,
      LockFrame(ws, req.uuid, req.key, |Queue(s.t, req.key)|, true, Some(TokenOf(t1, req.key))));
  }

  lemma JoinSheds(t: Table, ws: Ws, req: LockReq, ttl: Millis)
    requires req.key in t.locks
    ensures Sheds(t, JoinQueue(t, ws, req, ttl))
  {}

  lemma DecideFollows(s: State, ws: Ws, req: LockReq, ttl: Millis, env: Env)
    requires req.key in s.t.locks && Trusted(s)
    ensures Follows(s, Decide(s, ws, req, ttl, env), env.now)
  {
    if !Full(s.t, req.key) {
      GrantNowFollows(s, ws, req, ttl, env);
    } else {
      var t1 := if req.wait then JoinQueue(s.t, ws, req, ttl) else s.t;
      JoinSheds(s.t, ws, req, ttl);
      DropSheds(s.t, req.key, Minted(0));
      ShedFollows(s, s.(t := t1), env.now);
      SendFollows(s.(t := t1), env, LockFrame(ws, req.uuid, req.key, |Queue(s.t, req.key)|, false, None));
      FollowsTransitive(s, s.(t := t1), Decide(s, ws, req, ttl, env), env.now);
    }
  }

  lemma RegisterHolds(s: State, ws: Ws, req: LockReq, env: Env)
    requires Trusted(s)
    ensures Holds(s, Register(s, ws, req, env))
  {
    var s1 := Register(s, ws, req, env);
    RegisterSheds(s, ws, req, env);
    ShedObjectsAuthority(s.t, s1.t);
    SaysInOrder(s, s1);
  }

  lemma RegisterSheds(s: State, ws: Ws, req: LockReq, env: Env)
    ensures var s1 := Register(s, ws, req, env);
      ShedsObjects(s.t, s1.t) && s1.out == s.out && s1.sentAt == s.sentAt
  {}

  lemma SetMaxSheds(t: Table, k: Key, m: RawMax)
    requires !BadMax(m)
    ensures Sheds(t, SetMax(t, k, m))
  {}

  /** Once the request is registered, everything is done on the lock objects that are left. */
  lemma LockFollows(s: State, ws: Ws, req: LockReq, env: Env)
    requires Trusted(s)
    ensures Holds(s, Lock(s, ws, req, env))
    ensures Follows(if BadMax(req.max) then s else Register(s, ws, req, env), Lock(s, ws, req, env), env.now)
  {
    if BadMax(req.max) {
      SendFollows(s, env, LockErrorFrame(ws, req.uuid, req.key));
    } else {
      var s1, ttl, s' := Register(s, ws, req, env), SingleTtl(s, req.ttl), Lock(s, ws, req, env);
      RegisterHolds(s, ws, req, env);
      if req.key in s1.t.locks {
        LockOldFollows(s1, ws, req, ttl, env);
      } else {
        LockNewFollows(s1, ws, req, ttl, env, if req.max.Int? then req.max.n else 1);
      }
      HoldsTransitive(s, s1, s');
    }
  }

  lemma LockOldFollows(s: State, ws: Ws, req: LockReq, ttl: Millis, env: Env)
    requires Trusted(s) && req.key in s.t.locks && !BadMax(req.max)
    ensures Follows(s, Decide(s.(t := SetMax(s.t, req.key, req.max)), ws, req, ttl, env), env.now)
  {
    var s1 := s.(t := SetMax(s.t, req.key, req.max));
    SetMaxSheds(s.t, req.key, req.max);
    ShedFollows(s, s1, env.now);
    DecideFollows(s1, ws, req, ttl, env);
    FollowsTransitive(s, s1, Decide(s1, ws, req, ttl, env), env.now);
  }

  lemma LockNewFollows(s: State, ws: Ws, req: LockReq, ttl: Millis, env: Env, max: Pos)
    requires Trusted(s) && req.key !in s.t.locks
    ensures Follows(s, GrantNow(s.(t := Materialize(s.t, req.key, max, env)), ws, req, ttl, env), env.now)
  {
    var k, t0 := req.key, Materialize(s.t, req.key, max, env);
    var t1 := Grant(t0, k, req.uuid, ws, ttl, None, env);
    var s' := GrantNow(s.(t := t0), ws, req, ttl, env);
    MaterializeSeeds(s.t, k, max, env);
    DropSheds(t0, k, req.uuid);
    GrantTakes(t0, k, req.uuid, ws, ttl, None, env);
    SeedsThenTakes(s.t, t0, t0, t1, k, req.uuid, env.now);
    ReplyGranted(s, t1, s', env, LockFrame(ws, req.uuid, k, |Queue(t0, k)|, true, Some(TokenOf(t1, k))));
  }

  lemma AskFollows(s: State, w: Waiter, wait: bool, env: Env)
    requires w.composite.Some? && Trusted(s)
    ensures Follows(s, AskMany(s, w, wait, env), env.now)
  {
    var a := TryAll(s.t, w, env);
    TryAllAuthority(s.t, w, env);
    if a.contended.None? {
      AnnounceFollows(s, w, a, env);
    } else {
      var c, s1 := a.contended.value, s.(t := a.t);
      var t1 := if wait then Enqueue(a.t, c, w) else a.t;
      FollowsBy(s, s1, env.now);
      RequeueFollows(s1, c, w, env);
      DropSheds(a.t, c, Minted(0));
      ShedFollows(s1, s1, env.now);
      FollowsTransitive(s, s1, s.(t := t1), env.now);
      SendFollows(s.(t := t1), env, ManyRefused(w.ws, w.uuid, w.composite.value.allKeys, c, |Queue(t1, c)|));
      FollowsTransitive(s, s.(t := t1), AskMany(s, w, wait, env), env.now);
    }
  }

  lemma AcquireFollows(s: State, ws: Ws, req: ManyReq, env: Env)
    requires Trusted(s)
    ensures Follows(s, AcquireMany(s, ws, req, env), env.now)
  {
    if BadKeys(req.keys) {
      SendFollows(s, env, ManyErrorFrame(ws, req.uuid));
    } else {
      var ks := RequestedKeys(req.keys.entries);
      var w := Waiter(ws, req.uuid, ManyTtl(s, req.ttl), Some(CompositeAsk(ks, Minted(s.t.minted))));
      DropSheds(s.t, Key([]), Minted(0));
      ShedFollows(s, DrawOne(s), env.now);
      AskFollows(DrawOne(s), w, req.wait, env);
      FollowsTransitive(s, DrawOne(s), AcquireMany(s, ws, req, env), env.now);
    }
  }

  // ----- Every step -----

  /** Every step keeps the authority, and the tokens it reports are taken before they are reported. */
  lemma StepFollows(s: State, e: Event, env: Env)
    requires Trusted(s)
    ensures Holds(s, Step(s, e, env))
    ensures Dropped(s, e) || !e.LockEvent? ==> Follows(s, Step(s, e, env), env.now)
  {
    DropSheds(s.t, Key([]), Minted(0));
    ShedFollows(s, s, env.now);
    if !Dropped(s, e) {
      match e {
        case LockEvent(ws, req) => LockFollows(s, ws, req, env);
        case UnlockEvent(from, req) => UnlockFollows(s, from, req, env);
        case AcquireEvent(ws, req) => AcquireFollows(s, ws, req, env);
        case ReleaseEvent(ws, req) => ReleaseFollows(s, ws, req, env);
        case TickEvent(_, expired) => SweepFollows(s, expired, env);
        case CloseEvent(ws, visits) => CloseFollows(s, ws, visits, env);
        case GiveUpEvent(_, k, u) =>
          if k in s.t.locks {
            SetQueueSheds(s.t, k, Remove(Queue(s.t, k), u));
            ShedFollows(s, GiveUp(s, k, u), env.now);
          }
      }
    }
  }

  lemma CloseFollows(s: State, ws: Ws, visits: Visits, env: Env)
    requires Trusted(s)
    ensures Follows(s, Disconnect(s, ws, visits, env), env.now)
  {
    DropSheds(s.t, Key([]), Minted(0));
    ShedFollows(s, s, env.now);
    if ws !in s.closed {
      ShedFollows(s, Unplugged(s, ws), env.now);
      ScrubKeysFollows(Unplugged(s, ws), visits, Leaving(s, ws), ws, env);
      FollowsTransitive(s, Unplugged(s, ws), Disconnect(s, ws, visits, env), env.now);
    }
  }

  // ----- Every run -----

  lemma StartTrusted(fence: Fence, lockExpiresAfter: Pos)
    requires fence.hardened ==> FenceOk(fence)
    ensures Trusted(Start(fence, lockExpiresAfter))
  {
    var j := Start(fence, lockExpiresAfter).t.journal;
    assert Taken(j) == [] by { if j != [] { OneMoreNote([], j[0]); assert j == [] + [j[0]]; } }
    assert WriteAhead(j) by { if j != [] { assert j[..0] == []; } }
  }

  /** The watermark a hardened broker starts from: at or above its floor and what it found stored. */
  predicate FenceOk(f: Fence) {
    f.floor <= f.watermark && (f.durable.Some? ==> f.durable.value <= f.watermark)
  }

  lemma {:induction false} RunHolds(s: State, ins: seq<Input>)
    requires Trusted(s)
    ensures Holds(s, Run(s, ins))
    decreases |ins|
  {
    if ins != [] {
      StepFollows(s, ins[0].event, ins[0].env);
      RunHolds(Step(s, ins[0].event, ins[0].env), ins[1..]);
      HoldsTransitive(s, Step(s, ins[0].event, ins[0].env), Run(s, ins));
    }
  }

  /** Whatever happens to a new broker of either kind: no single grant, in the middle of a step or at its
      end, left more holders than the largest `max` its key had had, and no state between steps has more. */
  lemma HoldersCapped(fence: Fence, lockExpiresAfter: Pos, ins: seq<Input>)
    requires fence.hardened ==> FenceOk(fence)
    ensures var s := Run(Start(fence, lockExpiresAfter), ins);
      && (forall n :: n in s.t.journal && n.Took? ==> n.holders <= n.maxEver)
      && (forall k :: k in s.t.locks ==> |Holders(s.t, k)| <= s.t.locks[k].maxEver)
  {
    var s := Run(Start(fence, lockExpiresAfter), ins);
    StartTrusted(fence, lockExpiresAfter);
    RunHolds(Start(fence, lockExpiresAfter), ins);
    forall k | k in s.t.locks ensures |Holders(s.t, k)| <= s.t.locks[k].maxEver {
      assert KeyCapped(k, s.t.locks[k], Log(s.t));
    }
  }

  // ----- What it comes to -----

  /** `f` tells that `token` was taken for `k`. */
  predicate Tells(f: Frame, k: Key, token: int) {
    || (f.LockFrame? && f.key == k && f.token == Some(token))
    || (f.ManyGranted? && k in f.tokens && f.tokens[k] == token)
  }

  lemma FrameCovered(s: State, f: Frame, k: Key, token: int)
    requires Trusted(s) && s.t.fence.hardened && f in s.out && Tells(f, k, token)
    ensures Mint(k, token) in Log(s.t) && token <= s.t.fence.watermark
    ensures s.t.fence.durable.Some? ==> token <= s.t.fence.durable.value
  {
    var i :| 0 <= i < |s.out| && s.out[i] == f;
    assert Mint(k, token) in Taken(s.t.journal[..s.sentAt[i]]);
    CutJournal(s.t.journal, s.sentAt[i]);
    if s.t.fence.durable.Some? { TakenCovered(s.t.journal); }
  }

  /** Whatever happens to a new hardened broker, no frame tells a token that was not taken, or that is
      above the watermark or the durable cell. */
  lemma FramesCovered(fence: Fence, lockExpiresAfter: Pos, ins: seq<Input>, f: Frame, k: Key, token: int)
    requires fence.hardened && FenceOk(fence)
    requires f in Run(Start(fence, lockExpiresAfter), ins).out && Tells(f, k, token)
    ensures var t := Run(Start(fence, lockExpiresAfter), ins).t;
      && Mint(k, token) in Log(t) && token <= t.fence.watermark
      && (t.fence.durable.Some? <==> fence.durable.Some?)
      && (t.fence.durable.Some? ==> token <= t.fence.durable.value)
  {
    StartTrusted(fence, lockExpiresAfter);
    RunHolds(Start(fence, lockExpiresAfter), ins);
    FrameCovered(Run(Start(fence, lockExpiresAfter), ins), f, k, token);
  }

  lemma OnlyHolder(s: State, k: Key, u: Uuid, m: Mint)
    requires Trusted(s) && s.t.fence.hardened && u in Holders(s.t, k) && s.t.locks[k].maxEver == 1
    requires m in Log(s.t) && m.key == k
    ensures Holders(s.t, k).Keys == {u} && Holders(s.t, k)[u].token == s.t.locks[k].nextToken
    ensures m.token < Holders(s.t, k)[u].token || m == Mint(k, Holders(s.t, k)[u].token)
  {
    var h := Holders(s.t, k);
    assert KeyCapped(k, s.t.locks[k], Log(s.t));
    assert |h.Keys| == |h| <= 1;
    SubsetSize({u}, h.Keys);
    if h.Keys != {u} {
      var v :| v in h && v != u;
      SubsetSize({u, v}, h.Keys);
    }
  }

  /** Whatever happens to a new hardened broker: on a key whose `max` was always one, the holder is alone,
      and its token is the key's counter and higher than every other token ever taken for the key. */
  lemma HolderCurrent(fence: Fence, lockExpiresAfter: Pos, ins: seq<Input>, k: Key, u: Uuid, m: Mint)
    requires fence.hardened && FenceOk(fence)
    requires var t := Run(Start(fence, lockExpiresAfter), ins).t;
      u in Holders(t, k) && t.locks[k].maxEver == 1 && m in Log(t) && m.key == k
    ensures var t := Run(Start(fence, lockExpiresAfter), ins).t;
      && Holders(t, k).Keys == {u} && Holders(t, k)[u].token == t.locks[k].nextToken
      && (m.token < Holders(t, k)[u].token || m == Mint(k, Holders(t, k)[u].token))
  {
    StartTrusted(fence, lockExpiresAfter);
    RunHolds(Start(fence, lockExpiresAfter), ins);
    OnlyHolder(Run(Start(fence, lockExpiresAfter), ins), k, u, m);
  }
}

/** What a step does to the broker's own records: the uuids a socket answers for, the sockets cleaned up,
    the count of lock requests, and the default time. Serving queues does nothing to them. */
module Records {
  import opened BrokerTypes
  import opened BrokerSpec
  import opened BrokerSteps
  import opened Events
  import opened Releases

  ghost predicate SameRecords(s: State, s': State) {
    && s'.wsUuids == s.wsUuids && s'.closed == s.closed
    && s'.lockCounts == s.lockCounts && s'.lockExpiresAfter == s.lockExpiresAfter
  }

  // ----- Serving -----

  lemma ServeRecords(s: State, k: Key, env: Env)
    requires Queue(s.t, k) != [] && !Full(s.t, k)
    ensures SameRecords(s, ServeNext(s, k, env))
  {}

  lemma {:induction false} DrainRecords(s: State, k: Key, env: Env)
    ensures SameRecords(s, Drain(s, k, env))
    decreases |Queue(s.t, k)|
  {
    if Queue(s.t, k) != [] && !Full(s.t, k) {
      ServeRecords(s, k, env);
      DrainRecords(ServeNext(s, k, env), k, env);
    }
  }

  lemma EnsureRecords(s: State, k: Key, gone: Option<Uuid>, env: Env)
    requires k in s.t.locks
    ensures SameRecords(s, EnsureNewLockHolder(s, k, gone, env))
  {
    DrainRecords(s.(t := DropGone(s.t, k, gone)), k, env);
  }

  // ----- The releasing steps -----

  lemma UnlockRecords(s: State, from: Option<Ws>, req: UnlockReq, env: Env)
    ensures SameRecords(Forget(s, from, req.target), Unlock(s, from, req, env))
  {
    if req.key in s.t.locks && Freeing(s.t, req).Some? {
      UnlockAnswers(s, from, req, env);
      EnsureRecords(Answered(s, from, req, env), req.key, req.target, env);
    }
  }

  lemma {:induction false} ReleaseMembersRecords(s: State, ks: seq<Key>, us: map<Key, Uuid>, env: Env)
    ensures SameRecords(s, ReleaseMembers(s, ks, us, env))
    decreases |ks|
  {
    if ks != [] {
      var k := ks[0];
      var s1 := if k !in us || k !in s.t.locks then s
                else EnsureNewLockHolder(s.(t := ReleaseMember(s.t, k, us[k])), k, Some(us[k]), env);
      if k in us && k in s.t.locks { EnsureRecords(s.(t := ReleaseMember(s.t, k, us[k])), k, Some(us[k]), env); }
      ReleaseMembersRecords(s1, ks[1..], us, env);
    }
  }

  lemma ReleaseManyRecords(s: State, ws: Ws, req: ReleaseReq, env: Env)
    ensures SameRecords(s, ReleaseMany(s, ws, req, env))
  {
    if req.lockUuid.Some? && req.lockUuid.value in s.composites {
      var c := s.composites[req.lockUuid.value];
      ReleaseMembersRecords(s, c.keys, c.holderUuids, env);
    }
  }

  lemma {:induction false} SweepRecords(s: State, expired: seq<(Uuid, Key)>, env: Env)
    ensures SameRecords(s, Sweep(s, expired, env))
    decreases |expired|
  {
    if expired != [] {
      var (u, k) := expired[0];
      if u in Holders(s.t, k) { EnsureRecords(s.(t := TimeOut(DropRow(s.t, u), k, u)), k, Some(u), env); }
      SweepRecords(Evict(s, u, k, env), expired[1..], env);
    }
  }

  lemma {:induction false} UnlockOwnedRecords(s: State, k: Key, us: seq<Uuid>, ws: Ws, env: Env)
    requires ws !in s.wsUuids
    ensures SameRecords(s, UnlockOwned(s, k, us, ws, env))
    decreases |us|
  {
    if us != [] {
      var req := UnlockReq(k, None, Some(us[0]), true);
      UnlockRecords(s, Some(ws), req, env);
      UnlockOwnedRecords(Unlock(s, Some(ws), req, env), k, us[1..], ws, env);
    }
  }

  lemma {:induction false} ScrubKeysRecords(s: State, visits: Visits, uuids: set<Uuid>, ws: Ws, env: Env)
    requires ws !in s.wsUuids
    ensures SameRecords(s, ScrubKeys(s, visits, uuids, ws, env))
    decreases |visits|
  {
    if visits != [] {
      var (k, us) := visits[0];
      if k in s.t.locks {
        UnlockOwnedRecords(s.(t := ScrubQueue(s.t, k, uuids, ws)), k, us, ws, env);
        ScrubKeysRecords(ScrubKey(s, k, uuids, us, ws, env), visits[1..], uuids, ws, env);
      } else {
        ScrubKeysRecords(s, visits[1..], uuids, ws, env);
      }
    }
  }

  // ----- The requesting steps -----

  lemma DecideRecords(s: State, ws: Ws, req: LockReq, ttl: Millis, env: Env)
    requires req.key in s.t.locks
    ensures SameRecords(s, Decide(s, ws, req, ttl, env)) && SameRecords(s, GrantNow(s, ws, req, ttl, env))
    ensures Decide(s, ws, req, ttl, env).composites == GrantNow(s, ws, req, ttl, env).composites == s.composites
  {}

  /** A lock request is counted, up to the third, unless its max is refused. */
  function Counted(s: State, req: LockReq): nat {
    if BadMax(req.max) then s.lockCounts else if s.lockCounts >= 3 then 0 else s.lockCounts + 1
  }

  lemma LockRecords(s: State, ws: Ws, req: LockReq, env: Env)
    ensures var s' := Lock(s, ws, req, env);
      && s'.composites == s.composites && s'.closed == s.closed && s'.lockExpiresAfter == s.lockExpiresAfter
      && s'.lockCounts == Counted(s, req)
      && s'.wsUuids == if BadMax(req.max) then s.wsUuids else s.wsUuids[ws := Leaving(s, ws) + {req.uuid}]
  {
    if !BadMax(req.max) {
      var s1, k, ttl := Register(s, ws, req, env), req.key, SingleTtl(s, req.ttl);
      if k in s1.t.locks {
        DecideRecords(s1.(t := SetMax(s1.t, k, req.max)), ws, req, ttl, env);
      } else {
        DecideRecords(s1.(t := Materialize(s1.t, k, if req.max.Int? then req.max.n else 1, env)), ws, req, ttl, env);
      }
    }
  }

  lemma AskRecords(s: State, w: Waiter, wait: bool, env: Env)
    requires w.composite.Some?
    ensures SameRecords(s, AskMany(s, w, wait, env))
  {}

  lemma AcquireRecords(s: State, ws: Ws, req: ManyReq, env: Env)
    ensures SameRecords(s, AcquireMany(s, ws, req, env))
  {
    if !BadKeys(req.keys) {
      var ks := RequestedKeys(req.keys.entries);
      AskRecords(DrawOne(s), Waiter(ws, req.uuid, ManyTtl(s, req.ttl), Some(CompositeAsk(ks, Minted(s.t.minted)))),
        req.wait, env);
    }
  }

  // ----- Every step -----

  /** What socket `x` answers for after the step: one uuid more for a lock request of its own, one less for
      an unlock of its own, and nothing once it is closed. */
  ghost predicate AnswersFor(s: State, e: Event, s': State, x: Ws) {
    Leaving(s', x) ==
      if Dropped(s, e) then Leaving(s, x)
      else if e.LockEvent? && e.ws == x && !BadMax(e.lock.max) then Leaving(s, x) + {e.lock.uuid}
      else if e.UnlockEvent? && e.from == Some(x) && e.unlock.target.Some? then Leaving(s, x) - {e.unlock.target.value}
      else if e.CloseEvent? && e.ws == x then {}
      else Leaving(s, x)
  }

  ghost predicate RecordsAfter(s: State, e: Event, s': State) {
    && (forall x :: AnswersFor(s, e, s', x))
    && s'.closed == (if e.CloseEvent? then s.closed + {e.ws} else s.closed)
    && s'.lockCounts == (if e.LockEvent? && !Dropped(s, e) then Counted(s, e.lock) else s.lockCounts)
    && s'.lockExpiresAfter == s.lockExpiresAfter
  }

  lemma SameAfter(s: State, e: Event, s': State)
    requires SameRecords(s, s') && (Dropped(s, e) || !(e.LockEvent? || e.UnlockEvent? || e.CloseEvent?))
    ensures RecordsAfter(s, e, s')
  {
    assert e.CloseEvent? ==> s.closed + {e.ws} == s.closed;
  }

  lemma LockAfter(s: State, e: Event, s': State)
    requires e.LockEvent? && !Dropped(s, e) && s'.closed == s.closed && s'.lockExpiresAfter == s.lockExpiresAfter
    requires s'.lockCounts == Counted(s, e.lock)
    requires s'.wsUuids ==
      if BadMax(e.lock.max) then s.wsUuids else s.wsUuids[e.ws := Leaving(s, e.ws) + {e.lock.uuid}]
    ensures RecordsAfter(s, e, s')
  {}

  lemma UnlockAfter(s: State, e: Event, s': State)
    requires e.UnlockEvent? && !Dropped(s, e) && SameRecords(Forget(s, e.from, e.unlock.target), s')
    ensures RecordsAfter(s, e, s')
  {}

  lemma CloseAfter(s: State, e: Event, s': State)
    requires e.CloseEvent? && !Dropped(s, e) && SameRecords(Unplugged(s, e.ws), s')
    ensures RecordsAfter(s, e, s')
  {}

  lemma StepRecords(s: State, e: Event, env: Env)
    ensures RecordsAfter(s, e, Step(s, e, env))
  {
    var s' := Step(s, e, env);
    if Dropped(s, e) {
      SameAfter(s, e, s');
    } else {
      match e {
        case LockEvent(ws, req) =>
          LockRecords(s, ws, req, env);
          LockAfter(s, e, s');
        case UnlockEvent(from, req) =>
          UnlockRecords(s, from, req, env);
          UnlockAfter(s, e, s');
        case AcquireEvent(ws, req) =>
          AcquireRecords(s, ws, req, env);
          SameAfter(s, e, s');
        case ReleaseEvent(ws, req) =>
          ReleaseManyRecords(s, ws, req, env);
          SameAfter(s, e, s');
        case TickEvent(_, expired) =>
          SweepRecords(s, expired, env);
          SameAfter(s, e, s');
        case CloseEvent(ws, visits) =>
          ScrubKeysRecords(Unplugged(s, ws), visits, Leaving(s, ws), ws, env);
          CloseAfter(s, e, s');
        case GiveUpEvent(_, _, _) => SameAfter(s, e, s');
      }
    }
  }
}

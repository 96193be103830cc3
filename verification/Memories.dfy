/** Whom a key remembers as evicted or released: exactly those it lost, until they are unlocked late or its
    idle lock object is deleted. Granting, rolling back and queueing change no memory. */
module Memories {
  import opened BrokerTypes
  import opened BrokerSpec
  import opened BrokerSteps
  import opened Events
  import opened Bookkeeping
  import opened Registries
  import opened Survival
  import opened Releases
  import opened Disconnects
  import opened Safety
  import opened LateReleases

  function Memory(t: Table, k: Key): set<Uuid> {
    if k in t.locks then t.locks[k].timedOut + t.locks[k].released else {}
  }

  ghost predicate SameMemory(t: Table, t': Table) {
    forall k :: Memory(t', k) == Memory(t, k)
  }

  // ----- Serving -----

  lemma MemberGrantMemory(t: Table, k: Key, ws: Ws, ttl: Millis, lockUuid: Uuid, env: Env)
    ensures SameMemory(t, GrantMember(t, k, ws, ttl, lockUuid, env))
  {}

  lemma {:induction false} TryKeysMemory(t: Table, ks: seq<Key>, ws: Ws, ttl: Millis, lockUuid: Uuid, env: Env)
    ensures SameMemory(t, TryKeys(t, ks, ws, ttl, lockUuid, env).t)
    decreases |ks|
  {
    if ks != [] && !Full(t, ks[0]) {
      var t1 := GrantMember(t, ks[0], ws, ttl, lockUuid, env);
      MemberGrantMemory(t, ks[0], ws, ttl, lockUuid, env);
      TryKeysMemory(t1, ks[1..], ws, ttl, lockUuid, env);
    }
  }

  lemma {:induction false} RollbackMemory(t: Table, ks: seq<Key>, us: map<Key, Uuid>)
    ensures SameMemory(t, Rollback(t, ks, us))
    decreases |ks|
  {
    if ks != [] { RollbackMemory(if ks[0] in us then Drop(t, ks[0], us[ks[0]]) else t, ks[1..], us); }
  }

  lemma TryAllMemory(t: Table, w: Waiter, env: Env)
    requires w.composite.Some?
    ensures SameMemory(t, TryAll(t, w, env).t)
  {
    var ask := w.composite.value;
    TryKeysMemory(t, ask.allKeys, w.ws, w.ttl, ask.lockUuid, env);
    var a := TryKeys(t, ask.allKeys, w.ws, w.ttl, ask.lockUuid, env);
    RollbackMemory(a.t, ask.allKeys, a.us);
  }

  lemma EnqueueMemory(t: Table, k: Key, w: Waiter)
    ensures SameMemory(t, Enqueue(t, k, w))
  {}

  lemma SetQueueMemory(t: Table, k: Key, q: seq<Waiter>)
    requires k in t.locks
    ensures SameMemory(t, SetQueue(t, k, q))
  {}

  lemma ServeMemory(s: State, k: Key, env: Env)
    requires Queue(s.t, k) != [] && !Full(s.t, k)
    ensures SameMemory(s.t, ServeNext(s, k, env).t)
  {
    var (w, rest) := NextWaiter(Queue(s.t, k), env.live);
    var t1 := SetQueue(s.t, k, rest);
    SetQueueMemory(s.t, k, rest);
    if w.composite.Some? {
      var a := TryAll(t1, w, env);
      TryAllMemory(t1, w, env);
      if a.contended.Some? { EnqueueMemory(a.t, a.contended.value, w); }
    }
  }

  lemma {:induction false} DrainMemory(s: State, k: Key, env: Env)
    ensures SameMemory(s.t, Drain(s, k, env).t)
    decreases |Queue(s.t, k)|
  {
    if Queue(s.t, k) != [] && !Full(s.t, k) {
      ServeMemory(s, k, env);
      DrainMemory(ServeNext(s, k, env), k, env);
    }
  }

  lemma EnsureMemory(s: State, k: Key, gone: Option<Uuid>, env: Env)
    requires k in s.t.locks
    ensures SameMemory(s.t, EnsureNewLockHolder(s, k, gone, env).t)
  {
    var t1 := DropGone(s.t, k, gone);
    assert SameMemory(s.t, t1);
    DrainMemory(s.(t := t1), k, env);
  }

  // ----- The releasing steps -----

  /** What key `x` remembers after an unlock: besides, the holders it takes away; but not the uuid it is
      taken for a late one of. */
  ghost predicate UnlockRemembers(t: Table, t': Table, req: UnlockReq, x: Key) {
    Memory(t', x) ==
      if x != req.key then Memory(t, x)
      else if TakenForLate(t, req) then Memory(t, x) - {req.target.value}
      else Memory(t, x) + set u | u in Holders(t, x) && Unlocks(req, x, u)
  }

  lemma FreeingMemory(t: Table, req: UnlockReq, x: Key)
    requires req.key in t.locks
    ensures UnlockRemembers(t, if Freeing(t, req).Some? then Freeing(t, req).value else t, req, x)
  {}

  lemma UnlockMemory(s: State, from: Option<Ws>, req: UnlockReq, env: Env, x: Key)
    ensures UnlockRemembers(s.t, Unlock(s, from, req, env).t, req, x)
  {
    if req.key in s.t.locks {
      FreeingMemory(s.t, req, x);
      if Freeing(s.t, req).Some? {
        UnlockAnswers(s, from, req, env);
        EnsureMemory(Answered(s, from, req, env), req.key, req.target, env);
      }
    }
  }

  lemma MemberMemory(s: State, k: Key, u: Uuid, env: Env, x: Key)
    requires k in s.t.locks
    ensures var s' := EnsureNewLockHolder(s.(t := ReleaseMember(s.t, k, u)), k, Some(u), env);
      Memory(s'.t, x) == Memory(s.t, x) + if x == k && u in Holders(s.t, k) then {u} else {}
  {
    EnsureMemory(s.(t := ReleaseMember(s.t, k, u)), k, Some(u), env);
  }

  lemma {:induction false} ReleaseMembersMemory(s: State, c: Uuid, ks: seq<Key>, us: map<Key, Uuid>, env: Env, x: Key,
                                                prior: iset<Uuid>)
    requires Sound(s, {}) && NewWhole(s, prior) && c in prior && c in s.composites && s.composites[c].holderUuids == us
    requires Distinct(ks)
    ensures Memory(ReleaseMembers(s, ks, us, env).t, x) ==
      Memory(s.t, x) + if x in ks && x in us && us[x] in Holders(s.t, x) then {us[x]} else {}
    decreases |ks|
  {
    if ks != [] {
      var k, rest := ks[0], ks[1..];
      assert forall y :: y in ks <==> y == k || y in rest;
      if k in us && k in s.t.locks {
        var s1 := EnsureNewLockHolder(s.(t := ReleaseMember(s.t, k, us[k])), k, Some(us[k]), env);
        ReleaseMemberSound(s, c, k, env, prior);
        ReleaseMembersMemory(s1, c, rest, us, env, x, prior);
        MemberThenRestMemory(s, s1, c, k, rest, env, x);
      } else {
        ReleaseMembersMemory(s, c, rest, us, env, x, prior);
      }
    }
  }

  lemma MemberThenRestMemory(s: State, s1: State, c: Uuid, k: Key, rest: seq<Key>, env: Env, x: Key)
    requires Registry(s) && c in s.composites && k in s.composites[c].holderUuids && k in s.t.locks && k !in rest
    requires var us := s.composites[c].holderUuids;
      && s1 == EnsureNewLockHolder(s.(t := ReleaseMember(s.t, k, us[k])), k, Some(us[k]), env)
      && Trades(s.t, s1.t, iset{(k, us[k])}, env)
    ensures var us := s.composites[c].holderUuids;
      Memory(s1.t, x) + (if x in rest && x in us && us[x] in Holders(s1.t, x) then {us[x]} else {}) ==
      Memory(s.t, x) + if (x == k || x in rest) && x in us && us[x] in Holders(s.t, x) then {us[x]} else {}
  {
    MemberMemory(s, k, s.composites[c].holderUuids[k], env, x);
    MemberStays(s, s1, c, k, x, env);
  }

  /** Releasing one member neither takes another away nor brings one back. */
  lemma MemberStays(s: State, s1: State, c: Uuid, k: Key, x: Key, env: Env)
    requires Registry(s) && c in s.composites && k in s.composites[c].holderUuids
    requires Trades(s.t, s1.t, iset{(k, s.composites[c].holderUuids[k])}, env)
    ensures var us := s.composites[c].holderUuids;
      x in us && x != k ==> (us[x] in Holders(s1.t, x) <==> us[x] in Holders(s.t, x))
  {
    var us := s.composites[c].holderUuids;
    assert WellFormed(s.composites[c], s.t.minted);
    forall y, u | u in Holders(s1.t, y) && u !in Holders(s.t, y) ensures u.Minted? ==> s.t.minted <= u.n {
      assert Newcomer(s.t, s1.t, y, u, env);
    }
    if x in us && x != k && us[x] in Holders(s.t, x) { assert SameHolder(s.t, s1.t, x, us[x]); }
  }

  lemma EvictMemory(s: State, u: Uuid, k: Key, env: Env, x: Key)
    ensures Memory(Evict(s, u, k, env).t, x) == Memory(s.t, x) + if x == k && u in Holders(s.t, k) then {u} else {}
  {
    if u in Holders(s.t, k) { EnsureMemory(s.(t := TimeOut(DropRow(s.t, u), k, u)), k, Some(u), env); }
  }

  lemma {:induction false} SweepMemory(s: State, expired: seq<(Uuid, Key)>, env: Env, x: Key, prior: iset<Uuid>)
    requires Sound(s, {}) && NewWhole(s, prior) && Due(s.t, expired, prior)
    ensures Memory(Sweep(s, expired, env).t, x) == Memory(s.t, x) + set e | e in expired && e.1 == x :: e.0
    decreases |expired|
  {
    if expired != [] {
      var (u, k) := expired[0];
      var s1, rest := Evict(s, u, k, env), expired[1..];
      assert expired[0] in expired && DueHolder(s.t, u, k, prior);
      EvictMemory(s, u, k, env, x);
      EvictSound(s, u, k, env, prior);
      DueStill(s.t, s1.t, expired, env, prior);
      SweepMemory(s1, rest, env, x, prior);
      assert forall e :: e in expired <==> e == expired[0] || e in rest;
    }
  }

  // ----- A socket closes -----

  /** The holders of `us` that key `k` loses are remembered; nothing is forgotten, and nobody else remembered. */
  lemma {:induction false} UnlockOwnedMemory(s: State, k: Key, us: seq<Uuid>, ws: Ws, env: Env, x: Key,
                                             dying: set<Uuid>, prior: iset<Uuid>)
    requires Sound(s, dying) && NewWhole(s, prior) && Distinct(us) && OwnOld(s.t, k, us, ws, prior)
    requires forall u :: u in dying ==> u in us
    ensures Memory(UnlockOwned(s, k, us, ws, env).t, x) == Memory(s.t, x) + if x == k then (set u | u in us) else {}
    decreases |us|
  {
    if us != [] {
      var u, rest := us[0], us[1..];
      var req := UnlockReq(k, None, Some(u), true);
      var s1 := Unlock(s, Some(ws), req, env);
      assert forall v :: v in us <==> v == u || v in rest;
      assert DueHolder(s.t, u, k, prior);
      UnlockMemory(s, Some(ws), req, env, x);
      UnlockOne(s, k, u, ws, env, dying, prior);
      OwnStill(s.t, s1.t, k, us, ws, env, dying, prior);
      UnlockOwnedMemory(s1, k, rest, ws, env, x, dying - {u}, prior);
    }
  }

  lemma ScrubKeyMemory(s: State, k: Key, uuids: set<Uuid>, us: seq<Uuid>, ws: Ws, env: Env, x: Key)
    requires k in s.t.locks && Sound(s, {}) && Lists(us, Owned(s.t, k, ws))
    ensures Memory(ScrubKey(s, k, uuids, us, ws, env).t, x) == Memory(s.t, x) + if x == k then Owned(s.t, k, ws) else {}
  {
    var s1 := s.(t := ScrubQueue(s.t, k, uuids, ws));
    assert SameMemory(s.t, s1.t);
    ScrubbedSound(s, k, uuids, ws, env);
    OwnRecorded(s, s1, k, us, ws);
    UnlockOwnedMemory(s1, k, us, ws, env, x, Owned(s.t, k, ws), Recorded(s));
    assert (set u | u in us) == Owned(s.t, k, ws);
  }

  /** A key not visited yet remembers the socket's holders it has, and perhaps members of composites that the
      close itself grants it. */
  ghost predicate CloseRemembers(t: Table, t': Table, ws: Ws, x: Key) {
    && Memory(t, x) + Owned(t, x, ws) <= Memory(t', x)
    && forall u :: u in Memory(t', x) ==> u in Memory(t, x) + Owned(t, x, ws) || (u.Minted? && t.minted <= u.n)
  }

  lemma {:induction false} ScrubKeysMemory(s: State, visits: Visits, seen: set<Key>, uuids: set<Uuid>, ws: Ws,
                                           env: Env, x: Key)
    requires Sound(s, {}) && FullVisit(s, visits, seen, uuids, ws, env)
    ensures var s' := ScrubKeys(s, visits, uuids, ws, env);
      if x in seen then Memory(s'.t, x) == Memory(s.t, x) else CloseRemembers(s.t, s'.t, ws, x)
    decreases |visits|
  {
    if visits != [] {
      var (k, us) := visits[0];
      var s1, rest := ScrubKey(s, k, uuids, us, ws, env), visits[1..];
      ScrubKeyMemory(s, k, uuids, us, ws, env, x);
      ScrubKeySound(s, k, uuids, us, ws, env);
      ScrubKeysMemory(s1, rest, seen + {k}, uuids, ws, env, x);
      if x !in seen && x != k { OwnedLater(s, s1, k, us, ws, env, x); }
    }
  }

  /** What the socket holds elsewhere after a key is scrubbed: what it held, and what its composites were granted. */
  lemma OwnedLater(s: State, s1: State, k: Key, us: seq<Uuid>, ws: Ws, env: Env, x: Key)
    requires Sound(s, {}) && ServedFrom(s, s1, k) && Trades(s.t, s1.t, At(k, us), env) && x != k
    ensures s.t.minted <= s1.t.minted && Owned(s.t, x, ws) <= Owned(s1.t, x, ws)
    ensures forall u :: u in Owned(s1.t, x, ws) ==> u in Owned(s.t, x, ws) || (u.Minted? && s.t.minted <= u.n)
  {
    forall u | u in Owned(s.t, x, ws) ensures u in Owned(s1.t, x, ws) { assert SameHolder(s.t, s1.t, x, u); }
    forall u | u in Owned(s1.t, x, ws) ensures u in Owned(s.t, x, ws) || (u.Minted? && s.t.minted <= u.n) {
      if u in Holders(s.t, x) {
        assert SameHolder(s.t, s1.t, x, u);
      } else {
        assert Newcomer(s.t, s1.t, x, u, env);
      }
    }
  }

  // ----- The requesting steps -----

  lemma DecideMemory(s: State, ws: Ws, req: LockReq, ttl: Millis, env: Env)
    requires req.key in s.t.locks
    ensures SameMemory(s.t, Decide(s, ws, req, ttl, env).t) && SameMemory(s.t, GrantNow(s, ws, req, ttl, env).t)
  {
    if Full(s.t, req.key) { SetQueueMemory(s.t, req.key, Queue(JoinQueue(s.t, ws, req, ttl), req.key)); }
  }

  lemma RegisterMemory(s: State, ws: Ws, req: LockReq, env: Env, x: Key)
    requires !BadMax(req.max)
    ensures Memory(Register(s, ws, req, env).t, x) == if DeletesIdle(s, req, env, x) then {} else Memory(s.t, x)
  {}

  lemma NewOrOldMemory(t: Table, k: Key, m: RawMax, max: Pos, env: Env)
    requires !BadMax(m)
    ensures SameMemory(t, SetMax(t, k, m)) && SameMemory(t, Materialize(t, k, max, env))
  {}

  lemma LockMemory(s: State, ws: Ws, req: LockReq, env: Env, x: Key)
    ensures Memory(Lock(s, ws, req, env).t, x) == if DeletesIdle(s, req, env, x) then {} else Memory(s.t, x)
  {
    if !BadMax(req.max) {
      var s1, ttl := Register(s, ws, req, env), SingleTtl(s, req.ttl);
      var m: Pos := if req.max.Int? then req.max.n else 1;
      RegisterMemory(s, ws, req, env, x);
      NewOrOldMemory(s1.t, req.key, req.max, m, env);
      if req.key in s1.t.locks {
        DecideMemory(s1.(t := SetMax(s1.t, req.key, req.max)), ws, req, ttl, env);
      } else {
        DecideMemory(s1.(t := Materialize(s1.t, req.key, m, env)), ws, req, ttl, env);
      }
    }
  }

  lemma AskMemory(s: State, w: Waiter, wait: bool, env: Env)
    requires w.composite.Some?
    ensures SameMemory(s.t, AskMany(s, w, wait, env).t)
  {
    var a := TryAll(s.t, w, env);
    TryAllMemory(s.t, w, env);
    if a.contended.Some? { EnqueueMemory(a.t, a.contended.value, w); }
  }

  lemma AcquireMemory(s: State, ws: Ws, req: ManyReq, env: Env)
    ensures SameMemory(s.t, AcquireMany(s, ws, req, env).t)
  {
    if !BadKeys(req.keys) {
      var ask := CompositeAsk(RequestedKeys(req.keys.entries), Minted(s.t.minted));
      AskMemory(DrawOne(s), Waiter(ws, req.uuid, ManyTtl(s, req.ttl), Some(ask)), req.wait, env);
      assert SameMemory(s.t, DrawOne(s).t);
    }
  }

  // ----- Every step -----

  /** The holders a step takes from key `x`. */
  ghost function Lost(s: State, e: Event, x: Key): set<Uuid> {
    set u | u in Holders(s.t, x) && Removes(s, e, x, u)
  }

  /** The uuid that an unlock, taken for a late one, claims at `x`. */
  function Claimed(s: State, e: Event, x: Key): set<Uuid> {
    if !Dropped(s, e) && e.UnlockEvent? && e.unlock.key == x && TakenForLate(s.t, e.unlock)
    then {e.unlock.target.value} else {}
  }

  lemma ReleaseManyMemory(s: State, ws: Ws, req: ReleaseReq, env: Env, x: Key)
    requires Sound(s, {}) && !Dropped(s, ReleaseEvent(ws, req))
    ensures Memory(ReleaseMany(s, ws, req, env).t, x) == Memory(s.t, x) + Lost(s, ReleaseEvent(ws, req), x)
  {
    var e := ReleaseEvent(ws, req);
    if req.lockUuid.Some? && req.lockUuid.value in s.composites {
      var c := s.composites[req.lockUuid.value];
      MemberLost(s, e, x);
      ReleaseMembersMemory(s, req.lockUuid.value, c.keys, c.holderUuids, env, x, Recorded(s));
    } else {
      assert Lost(s, e, x) == {};
    }
  }

  /** A release-many takes the member that the composite records, if it is still there. */
  lemma MemberLost(s: State, e: Event, x: Key)
    requires Registered(s) && e.ReleaseEvent? && !Dropped(s, e)
    requires e.release.lockUuid.Some? && e.release.lockUuid.value in s.composites
    ensures var c := s.composites[e.release.lockUuid.value];
      Lost(s, e, x) == if x in c.keys && x in c.holderUuids && c.holderUuids[x] in Holders(s.t, x)
        then {c.holderUuids[x]} else {}
  {
    assert WellFormed(s.composites[e.release.lockUuid.value], s.t.minted);
  }

  lemma TickMemory(s: State, now: int, expired: seq<(Uuid, Key)>, env: Env, x: Key)
    requires Sound(s, {}) && ExpiredRows(s.t, now, expired)
    ensures Memory(Sweep(s, expired, env).t, x) == Memory(s.t, x) + Lost(s, TickEvent(now, expired), x)
  {
    assert NewWhole(s, Recorded(s)) && NewWhole(s, Prior(s, TickEvent(now, expired)));
    TickKeeps(s, now, expired, env);
    forall y | y in expired ensures DueHolder(s.t, y.0, y.1, Recorded(s)) {
      assert (y.0, y.1) in expired && TagAgrees(s, y.1, y.0);
    }
    SweepMemory(s, expired, env, x, Recorded(s));
    forall u ensures u in Lost(s, TickEvent(now, expired), x) <==> (u, x) in expired {}
    forall u | u in (set y | y in expired && y.1 == x :: y.0) ensures (u, x) in expired {}
    forall u | (u, x) in expired ensures u in (set y | y in expired && y.1 == x :: y.0) { assert (u, x).1 == x; }
  }

  lemma CloseMemory(s: State, ws: Ws, visits: Visits, env: Env, x: Key)
    requires Sound(s, {}) && ws !in s.closed
    requires FullVisit(Unplugged(s, ws), visits, {}, Leaving(s, ws), ws, env)
    ensures CloseRemembers(s.t, Disconnect(s, ws, visits, env).t, ws, x)
  {
    ClosedSound(s, ws, visits, env);
    ScrubKeysMemory(Unplugged(s, ws), visits, {}, Leaving(s, ws), ws, env, x);
  }

  /** After a step a key remembers what it did, but for a uuid claimed by a late unlock, and besides exactly
      the holders the step took from it; and nothing, once its idle lock object is deleted. A close may
      leave behind members of composites that it granted itself. */
  lemma StepRemembers(s: State, e: Event, env: Env, x: Key)
    requires Sound(s, {}) && Valid(s, e, env)
    ensures var t' := Step(s, e, env).t;
      && (Forgets(s, e, env, x) ==> Memory(t', x) == {})
      && (!Forgets(s, e, env, x) && (!e.CloseEvent? || Dropped(s, e)) ==>
            Memory(t', x) == Memory(s.t, x) - Claimed(s, e, x) + Lost(s, e, x))
      && (e.CloseEvent? && !Dropped(s, e) ==> CloseRemembers(s.t, t', e.ws, x))
  {
    if !Dropped(s, e) {
      match e {
        case LockEvent(ws, req) => LockMemory(s, ws, req, env, x);
        case UnlockEvent(from, req) => UnlockMemory(s, from, req, env, x);
        case AcquireEvent(ws, req) => AcquireMemory(s, ws, req, env);
        case ReleaseEvent(ws, req) => ReleaseManyMemory(s, ws, req, env, x);
        case TickEvent(now, expired) => TickMemory(s, now, expired, env, x);
        case CloseEvent(ws, visits) => CloseMemory(s, ws, visits, env, x);
        case GiveUpEvent(_, k, u) => if k in s.t.locks { SetQueueMemory(s.t, k, Remove(Queue(s.t, k), u)); }
      }
    }
  }
}

/** A closing socket's walk over the key map ends although the walk itself may add keys: it adds
    only keys that queued composites ask for. */
module Visiting {
  import opened BrokerTypes
  import opened BrokerSpec
  import opened Attempts
  import opened BrokerSteps
  import opened Bookkeeping

  // ----- The keys in play -----

  ghost predicate AsksWithin(w: Waiter, keys: set<Key>) {
    w.composite.Some? ==> forall x :: x in w.composite.value.allKeys ==> x in keys
  }

  /** Every key of the map, and every key a waiter asks for, is among `keys`. */
  ghost predicate Within(t: Table, keys: set<Key>) {
    t.locks.Keys <= keys && forall k, w :: Waits(t, k, w) ==> AsksWithin(w, keys)
  }

  ghost function AllKeys(t: Table): set<Key> {
    t.locks.Keys +
      set k, w, x | k in t.locks && w in t.locks[k].notify && w.composite.Some? && x in w.composite.value.allKeys :: x
  }

  lemma AllKeysWithin(t: Table)
    ensures Within(t, AllKeys(t))
  {
    forall k, w, x | Waits(t, k, w) && w.composite.Some? && x in w.composite.value.allKeys ensures x in AllKeys(t) {
      assert k in t.locks && w in t.locks[k].notify;
    }
  }

  lemma {:induction false} TryKeysWithin(t: Table, ks: seq<Key>, ws: Ws, ttl: Millis, lockUuid: Uuid, env: Env,
                                         keys: set<Key>)
    requires Within(t, keys) && forall x :: x in ks ==> x in keys
    ensures Within(TryKeys(t, ks, ws, ttl, lockUuid, env).t, keys)
    decreases |ks|
  {
    if ks != [] && !Full(t, ks[0]) {
      var t1 := GrantMember(t, ks[0], ws, ttl, lockUuid, env);
      MemberWithin(t, t1, ks[0], ws, ttl, lockUuid, env, keys);
      TryKeysWithin(t1, ks[1..], ws, ttl, lockUuid, env, keys);
    }
  }

  lemma MemberWithin(t: Table, t1: Table, k: Key, ws: Ws, ttl: Millis, lockUuid: Uuid, env: Env, keys: set<Key>)
    requires Within(t, keys) && k in keys && t1 == GrantMember(t, k, ws, ttl, lockUuid, env)
    ensures Within(t1, keys)
  {
    forall x ensures Queue(t1, x) == Queue(t, x) { GrantMemberAtKey(t, k, ws, ttl, lockUuid, env, x); }
    MemberKeys(t, k, ws, ttl, lockUuid, env);
    SameQueues(t, t1, keys);
  }

  lemma MemberKeys(t: Table, k: Key, ws: Ws, ttl: Millis, lockUuid: Uuid, env: Env)
    ensures GrantMember(t, k, ws, ttl, lockUuid, env).locks.Keys == t.locks.Keys + {k}
  {}

  lemma SameQueues(t: Table, t1: Table, keys: set<Key>)
    requires Within(t, keys) && t1.locks.Keys <= keys && forall x :: Queue(t1, x) == Queue(t, x)
    ensures Within(t1, keys)
  {
    assert forall x, w :: Waits(t1, x, w) ==> Waits(t, x, w);
  }

  lemma {:induction false} RollbackWithin(t: Table, ks: seq<Key>, us: map<Key, Uuid>, keys: set<Key>)
    requires Within(t, keys)
    ensures Within(Rollback(t, ks, us), keys)
    decreases |ks|
  {
    if ks != [] {
      var t1 := if ks[0] in us then Drop(t, ks[0], us[ks[0]]) else t;
      assert forall x, w :: Waits(t1, x, w) ==> Waits(t, x, w);
      RollbackWithin(t1, ks[1..], us, keys);
    }
  }

  lemma RetryWithin(s: State, w: Waiter, env: Env, keys: set<Key>)
    requires w.composite.Some? && Within(s.t, keys) && AsksWithin(w, keys)
    ensures Within(RetryMany(s, w, env).t, keys)
  {
    var ask, a := w.composite.value, TryAll(s.t, w, env);
    TryKeysWithin(s.t, ask.allKeys, w.ws, w.ttl, ask.lockUuid, env, keys);
    var b := TryKeys(s.t, ask.allKeys, w.ws, w.ttl, ask.lockUuid, env);
    RollbackWithin(b.t, ask.allKeys, b.us, keys);
    if a.contended.Some? { EnqueueWithin(a.t, a.contended.value, w, keys); }
  }

  lemma EnqueueWithin(t: Table, k: Key, w: Waiter, keys: set<Key>)
    requires Within(t, keys) && AsksWithin(w, keys)
    ensures Within(Enqueue(t, k, w), keys)
  {
    var t' := Enqueue(t, k, w);
    assert forall x, v :: Waits(t', x, v) ==> Waits(t, x, v) || v == w;
  }

  lemma {:induction false} NextWaiterFrom(q: seq<Waiter>, live: set<Ws>)
    requires q != []
    ensures NextWaiter(q, live).0 in q && forall w :: w in NextWaiter(q, live).1 ==> w in q
  {
    if |q| > 1 && q[0].ws !in live { NextWaiterFrom(q[1..], live); }
  }

  lemma ServeWithin(s: State, k: Key, env: Env, keys: set<Key>)
    requires Queue(s.t, k) != [] && !Full(s.t, k) && Within(s.t, keys)
    ensures Within(ServeNext(s, k, env).t, keys)
  {
    var (w, rest) := NextWaiter(Queue(s.t, k), env.live);
    var s1 := s.(t := SetQueue(s.t, k, rest));
    NextWaiterFrom(Queue(s.t, k), env.live);
    assert Waits(s.t, k, w);
    assert forall x, v :: Waits(s1.t, x, v) ==> Waits(s.t, x, v);
    if w.composite.Some? { RetryWithin(s1, w, env, keys); } else { GrantQueuedWithin(s1, k, w, env, keys); }
  }

  lemma GrantQueuedWithin(s: State, k: Key, w: Waiter, env: Env, keys: set<Key>)
    requires k in s.t.locks && Within(s.t, keys)
    ensures Within(GrantQueued(s, k, w, env).t, keys)
  {
    var t' := GrantQueued(s, k, w, env).t;
    assert forall x, v :: Waits(t', x, v) ==> Waits(s.t, x, v);
  }

  lemma {:induction false} DrainWithin(s: State, k: Key, env: Env, keys: set<Key>)
    requires Within(s.t, keys)
    ensures Within(Drain(s, k, env).t, keys)
    decreases |Queue(s.t, k)|
  {
    if Queue(s.t, k) != [] && !Full(s.t, k) {
      ServeWithin(s, k, env, keys);
      DrainWithin(ServeNext(s, k, env), k, env, keys);
    }
  }

  lemma EnsureWithin(s: State, k: Key, gone: Option<Uuid>, env: Env, keys: set<Key>)
    requires k in s.t.locks && Within(s.t, keys)
    ensures Within(EnsureNewLockHolder(s, k, gone, env).t, keys)
  {
    var t1 := DropGone(s.t, k, gone);
    SameQueues(s.t, t1, keys);
    SameQueues(t1, MarkEmptied(t1, k, env), keys);
    DrainWithin(s.(t := t1), k, env, keys);
  }

  lemma UnlockWithin(s: State, from: Option<Ws>, req: UnlockReq, env: Env, keys: set<Key>)
    requires Within(s.t, keys)
    ensures Within(Unlock(s, from, req, env).t, keys)
  {
    if req.key in s.t.locks && Freeing(s.t, req).Some? {
      var t1 := Freeing(s.t, req).value;
      FreeingQueues(s.t, req);
      SameQueues(s.t, t1, keys);
      EnsureWithin(ReplyUnlock(Forget(s, from, req.target).(t := t1), from, req, |Queue(s.t, req.key)|, true, env),
        req.key, req.target, env, keys);
    }
  }

  lemma FreeingQueues(t: Table, req: UnlockReq)
    requires req.key in t.locks && Freeing(t, req).Some?
    ensures Freeing(t, req).value.locks.Keys == t.locks.Keys
    ensures forall x :: Queue(Freeing(t, req).value, x) == Queue(t, x)
  {}

  lemma {:induction false} UnlockOwnedWithin(s: State, k: Key, us: seq<Uuid>, ws: Ws, env: Env, keys: set<Key>)
    requires Within(s.t, keys)
    ensures Within(UnlockOwned(s, k, us, ws, env).t, keys)
    decreases |us|
  {
    if us != [] {
      var req := UnlockReq(k, None, Some(us[0]), true);
      UnlockWithin(s, Some(ws), req, env, keys);
      UnlockOwnedWithin(Unlock(s, Some(ws), req, env), k, us[1..], ws, env, keys);
    }
  }

  lemma {:induction false} RemoveAllFrom(q: seq<Waiter>, us: set<Uuid>)
    ensures forall w :: w in RemoveAll(q, us) ==> w in q
  {
    if q != [] { RemoveAllFrom(q[1..], us); }
  }

  /** Scrubbing one key adds no key but those in play. */
  lemma ScrubWithin(s: State, k: Key, uuids: set<Uuid>, us: seq<Uuid>, ws: Ws, env: Env, keys: set<Key>)
    requires k in s.t.locks && Within(s.t, keys)
    ensures Within(ScrubKey(s, k, uuids, us, ws, env).t, keys)
  {
    var t1 := ScrubQueue(s.t, k, uuids, ws);
    RemoveAllFrom(Queue(s.t, k), uuids);
    assert forall x, v :: Waits(t1, x, v) ==> Waits(s.t, x, v);
    UnlockOwnedWithin(s.(t := t1), k, us, ws, env, keys);
  }

  // ----- The walk so far -----

  /** However the walk goes on from `s`, having seen `seen`, it is a walk from `s0` that began with
      `visits`. */
  ghost predicate Begun(s0: State, visits: Visits, s: State, seen: set<Key>, uuids: set<Uuid>, ws: Ws, env: Env) {
    forall tail: Visits ::
      && (FullVisit(s, tail, seen, uuids, ws, env) ==> FullVisit(s0, visits + tail, {}, uuids, ws, env))
      && ScrubKeys(s0, visits + tail, uuids, ws, env) == ScrubKeys(s, tail, uuids, ws, env)
  }

  lemma BeginNothing(s: State, uuids: set<Uuid>, ws: Ws, env: Env)
    ensures Begun(s, [], s, {}, uuids, ws, env)
  {
    forall tail: Visits ensures [] + tail == tail {}
  }

  lemma BeginOneMore(s0: State, visits: Visits, s: State, seen: set<Key>, k: Key, us: seq<Uuid>, uuids: set<Uuid>,
                     ws: Ws, env: Env)
    requires Begun(s0, visits, s, seen, uuids, ws, env) && k in s.t.locks && k !in seen && Lists(us, Owned(s.t, k, ws))
    ensures Begun(s0, visits + [(k, us)], ScrubKey(s, k, uuids, us, ws, env), seen + {k}, uuids, ws, env)
  {
    var s1 := ScrubKey(s, k, uuids, us, ws, env);
    forall tail: Visits
      ensures FullVisit(s1, tail, seen + {k}, uuids, ws, env) ==>
        FullVisit(s0, visits + [(k, us)] + tail, {}, uuids, ws, env)
      ensures ScrubKeys(s0, visits + [(k, us)] + tail, uuids, ws, env) == ScrubKeys(s1, tail, uuids, ws, env)
    {
      var longer := [(k, us)] + tail;
      assert visits + [(k, us)] + tail == visits + longer && longer[1..] == tail;
      assert ScrubKeys(s, longer, uuids, ws, env) == ScrubKeys(s1, tail, uuids, ws, env);
      assert FullVisit(s1, tail, seen + {k}, uuids, ws, env) ==> FullVisit(s, longer, seen, uuids, ws, env);
    }
  }

  lemma BegunEnds(s0: State, visits: Visits, s: State, seen: set<Key>, uuids: set<Uuid>, ws: Ws, env: Env)
    requires Begun(s0, visits, s, seen, uuids, ws, env) && s.t.locks.Keys <= seen
    ensures FullVisit(s0, visits, {}, uuids, ws, env) && ScrubKeys(s0, visits, uuids, ws, env) == s
  {
    assert visits + [] == visits;
    assert FullVisit(s, [], seen, uuids, ws, env);
  }

  /** Removing one uuid after another is removing them all. */
  lemma {:induction false} RemoveOneMore(q: seq<Waiter>, us: set<Uuid>, u: Uuid)
    ensures Remove(RemoveAll(q, us), u) == RemoveAll(q, us + {u})
  {
    if q != [] {
      RemoveOneMore(q[1..], us, u);
      var r := RemoveAll(q[1..], us);
      if q[0].uuid !in us { assert ([q[0]] + r)[1..] == r; }
    }
  }

  lemma {:induction false} RemoveNone(q: seq<Waiter>)
    ensures RemoveAll(q, {}) == q
  {
    if q != [] { RemoveNone(q[1..]); }
  }
}

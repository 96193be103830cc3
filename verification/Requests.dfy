/** The requesting steps: lock, acquire-many, and a client giving up. Each keeps the books and
    the registry, and disturbs no holder. */
module Requests {
  import opened BrokerTypes
  import opened BrokerSpec
  import opened Attempts
  import opened BrokerSteps
  import opened Invariants
  import opened Bookkeeping
  import opened Registries
  import opened Survival

  /** Every holder stays as it is. */
  ghost predicate Stays(t: Table, t': Table) {
    forall k, u :: u in Holders(t, k) ==> SameHolder(t, t', k, u)
  }

  // ----- Queue edits -----

  lemma PrecedesCons(x: Waiter, r: seq<Waiter>, w: Waiter, v: Waiter)
    requires Precedes(r, w, v) || (x == w && v in r)
    ensures Precedes([x] + r, w, v)
  {
    var q := [x] + r;
    if Precedes(r, w, v) {
      var i, j :| 0 <= i < j < |r| && r[i] == w && r[j] == v;
      assert q[i + 1] == w && q[j + 1] == v;
    } else {
      var j :| 0 <= j < |r| && r[j] == v;
      assert q[0] == w && q[j + 1] == v;
    }
  }

  lemma PrecedesTail(q: seq<Waiter>, w: Waiter, v: Waiter)
    requires q != [] && Precedes(q, w, v)
    ensures Precedes(q[1..], w, v) || (q[0] == w && v in q[1..])
  {
    var i, j :| 0 <= i < j < |q| && q[i] == w && q[j] == v;
    assert q[1..][j - 1] == v;
    if i > 0 { assert q[1..][i - 1] == w; }
  }

  /** Removing entries keeps the order of the others. */
  lemma {:induction false} RemoveAllOrdered(q: seq<Waiter>, us: set<Uuid>, w: Waiter, v: Waiter)
    requires w.uuid !in us && v.uuid !in us && Precedes(q, w, v)
    ensures Precedes(RemoveAll(q, us), w, v)
  {
    if q != [] {
      var r := RemoveAll(q[1..], us);
      PrecedesTail(q, w, v);
      RemoveAllKeeps(q[1..], us);
      if Precedes(q[1..], w, v) { RemoveAllOrdered(q[1..], us, w, v); }
      if q[0].uuid !in us { PrecedesCons(q[0], r, w, v); }
    }
  }

  lemma {:induction false} RemoveAllKeeps(q: seq<Waiter>, us: set<Uuid>)
    ensures forall w :: w in RemoveAll(q, us) <==> w in q && w.uuid !in us
    ensures (forall i, j :: 0 <= i < j < |q| ==> q[i].uuid != q[j].uuid) ==>
              forall i, j :: 0 <= i < j < |RemoveAll(q, us)| ==> RemoveAll(q, us)[i].uuid != RemoveAll(q, us)[j].uuid
  {
    if q != [] {
      RemoveAllKeeps(q[1..], us);
      assert forall w :: w in q <==> w == q[0] || w in q[1..];
      assert forall i :: 0 <= i < |q| - 1 ==> q[1..][i] == q[i + 1];
    }
  }

  // ----- lock -----

  /** A request's uuid holds nothing and waits for no other key. One that already waits for this
      key (a retry) does not raise the key's max above its holders. */
  ghost predicate LockFresh(t: Table, req: LockReq) {
    && FreshFor(t, req.key, req.uuid)
    && (!Loose(t, req.uuid) && req.max.Int? ==> req.max.n <= |Holders(t, req.key)|)
  }

  lemma RegisterSame(s: State, ws: Ws, req: LockReq, env: Env)
    requires !BadMax(req.max)
    ensures var s1 := Register(s, ws, req, env);
      SameBooks(s.t, s1.t) && s1.composites == s.composites && (req.key in s1.t.locks <==> req.key in s.t.locks)
      && SameBooks(s.t, SetMax(s1.t, req.key, req.max)) && MaxOf(s1.t, req.key) == MaxOf(s.t, req.key)
  {
    var t1 := InUse(s.t, req.key);
    InUseSame(s.t, req.key);
    CleanUpSame(t1, env.now, req.key);
    SetMaxSame(Register(s, ws, req, env).t, req.key, req.max);
  }

  lemma InUseSame(t: Table, k: Key)
    ensures var t1 := InUse(t, k);
      SameBooks(t, t1) && (k in t1.locks <==> k in t.locks) && MaxOf(t1, k) == MaxOf(t, k)
      && (k in t1.locks ==> t1.locks[k].emptiedAt.None?)
  {}

  /** An idle lock object has neither holders nor waiters. */
  lemma CleanUpSame(t: Table, now: int, k: Key)
    requires k in t.locks ==> t.locks[k].emptiedAt.None?
    ensures var t1 := CleanUpLocks(t, now);
      SameBooks(t, t1) && (k in t1.locks <==> k in t.locks) && MaxOf(t1, k) == MaxOf(t, k)
  {}

  lemma SetMaxSame(t: Table, k: Key, m: RawMax)
    requires !BadMax(m)
    ensures SameBooks(t, SetMax(t, k, m))
  {}

  lemma SetMaxAtKey(t: Table, k: Key, m: RawMax)
    requires !BadMax(m) && k in t.locks
    ensures MaxOf(SetMax(t, k, m), k) == if m.Int? then m.n else MaxOf(t, k)
  {}

  lemma MaterializeSame(t: Table, k: Key, max: Pos, env: Env)
    ensures SameBooks(t, Materialize(t, k, max, env)) && k in Materialize(t, k, max, env).locks
  {}

  ghost predicate DistinctUuids(q: seq<Waiter>) {
    forall i, j :: 0 <= i < j < |q| ==> q[i].uuid != q[j].uuid
  }

  /** A waiter put at the front or the back of a queue that has no entry of its uuid. */
  lemma AddDistinct(q: seq<Waiter>, w: Waiter)
    requires DistinctUuids(q) && forall v :: v in q ==> v.uuid != w.uuid
    ensures DistinctUuids([w] + q) && DistinctUuids(q + [w])
  {
    forall i | 0 <= i < |q| ensures q[i].uuid != w.uuid { assert q[i] in q; }
  }

  lemma NotContained(q: seq<Waiter>, u: Uuid)
    requires !Contains(q, u)
    ensures forall v :: v in q ==> v.uuid != u
  {}

  lemma JoinQueueJoins(t: Table, ws: Ws, req: LockReq, ttl: Millis)
    requires req.key in t.locks && QueuesDistinct(t)
    ensures Joins(t, JoinQueue(t, ws, req, ttl), req.key, Waiter(ws, req.uuid, ttl, None))
  {
    var q, w := Queue(t, req.key), Waiter(ws, req.uuid, ttl, None);
    assert DistinctUuids(q);
    RemoveAllKeeps(q, {req.uuid});
    AddDistinct(Remove(q, req.uuid), w);
    if !Contains(q, req.uuid) {
      NotContained(q, req.uuid);
      AddDistinct(q, w);
    }
    JoinsBy(t, JoinQueue(t, ws, req, ttl), req.key, w);
  }

  lemma JoinsBy(t: Table, t': Table, k: Key, w: Waiter)
    requires k in t.locks && t' == SetQueue(t, k, Queue(t', k)) && DistinctUuids(Queue(t', k))
    requires forall v :: v in Queue(t', k) ==> v in Queue(t, k) || v == w
    ensures Joins(t, t', k, w)
  {}

  lemma GrantNowSound(s: State, ws: Ws, req: LockReq, ttl: Millis, env: Env, prior: iset<Uuid>)
    requires req.key in s.t.locks && Sound(s, {}) && NewWhole(s, prior) && Loose(s.t, req.uuid)
    ensures var s' := GrantNow(s, ws, req, ttl, env);
      && Sound(s', {}) && NewWhole(s', prior) && KeepsRecords(s, s') && Stays(s.t, s'.t)
      && (forall k, u :: u in Holders(s'.t, k) && u !in Holders(s.t, k) ==> k == req.key && u == req.uuid)
  {
    var s' := GrantNow(s, ws, req, ttl, env);
    GrantBooks(s.t, req.key, req.uuid, ws, ttl, env, {});
    GrantRegistry(s, req.key, req.uuid, ws, ttl, env, s');
    forall k ensures forall u :: u in Holders(s.t, k) ==> SameHolder(s.t, s'.t, k, u) {
      GrantAtKey(s.t, req.key, req.uuid, ws, ttl, env, k);
    }
    forall k, u | u in Holders(s'.t, k) && u !in Holders(s.t, k) ensures k == req.key && u == req.uuid {
      GrantAtKey(s.t, req.key, req.uuid, ws, ttl, env, k);
    }
    SameRecordsWhole(s, s', prior);
  }

  lemma JoinQueueSound(s: State, s': State, ws: Ws, req: LockReq, ttl: Millis, prior: iset<Uuid>)
    requires req.key in s.t.locks && Sound(s, {}) && NewWhole(s, prior) && FreshFor(s.t, req.key, req.uuid)
    requires s'.t == JoinQueue(s.t, ws, req, ttl) && s'.composites == s.composites
    ensures Sound(s', {}) && NewWhole(s', prior)
    ensures KeepsRecords(s, s') && forall k :: Holders(s'.t, k) == Holders(s.t, k)
  {
    var w := Waiter(ws, req.uuid, ttl, None);
    JoinQueueJoins(s.t, ws, req, ttl);
    JoinBooks(s.t, s'.t, req.key, w, {});
    JoinRegistry(s, s', req.key, w);
    SameRecordsWhole(s, s', prior);
  }

  /** Nothing that waits alone for a key with room is granted by this request. */
  lemma GrantedLoose(t: Table, t2: Table, req: LockReq)
    requires LockFresh(t, req) && NoLostWakeup(t) && SameBooks(t, t2) && !Full(t2, req.key)
    requires MaxOf(t2, req.key) == if req.max.Int? then req.max.n else MaxOf(t, req.key)
    ensures Loose(t, req.uuid)
  {
    assert Served(t, req.key);
    assert !Loose(t, req.uuid) ==> exists x, w :: Waits(t, x, w) && w.composite.None? && w.uuid == req.uuid;
  }

  lemma DecideSound(s: State, ws: Ws, req: LockReq, ttl: Millis, env: Env, prior: iset<Uuid>)
    requires req.key in s.t.locks && Sound(s, {}) && NewWhole(s, prior)
    requires FreshFor(s.t, req.key, req.uuid) && (!Full(s.t, req.key) ==> Loose(s.t, req.uuid))
    ensures var s' := Decide(s, ws, req, ttl, env);
      && Sound(s', {}) && NewWhole(s', prior) && KeepsRecords(s, s') && Stays(s.t, s'.t)
      && (forall k, u :: u in Holders(s'.t, k) && u !in Holders(s.t, k) ==> k == req.key && u == req.uuid)
  {
    if !Full(s.t, req.key) {
      GrantNowSound(s, ws, req, ttl, env, prior);
    } else {
      DecideQueuedSound(s, Decide(s, ws, req, ttl, env), ws, req, ttl, env, prior);
    }
  }

  lemma DecideQueuedSound(s: State, s': State, ws: Ws, req: LockReq, ttl: Millis, env: Env, prior: iset<Uuid>)
    requires req.key in s.t.locks && Sound(s, {}) && NewWhole(s, prior) && FreshFor(s.t, req.key, req.uuid)
    requires s'.t == (if req.wait then JoinQueue(s.t, ws, req, ttl) else s.t) && s'.composites == s.composites
    ensures Sound(s', {}) && NewWhole(s', prior)
    ensures KeepsRecords(s, s') && forall k :: Holders(s'.t, k) == Holders(s.t, k)
  {
    if req.wait { JoinQueueSound(s, s', ws, req, ttl, prior); } else { SameBooksSound(s, s', {}, prior, env); }
  }

  lemma LockSound(s: State, ws: Ws, req: LockReq, env: Env, prior: iset<Uuid>)
    requires Sound(s, {}) && NewWhole(s, prior) && NoLostWakeup(s.t) && LockFresh(s.t, req)
    ensures var s' := Lock(s, ws, req, env);
      && Sound(s', {}) && NewWhole(s', prior) && KeepsRecords(s, s') && Stays(s.t, s'.t)
      && (forall k, u :: u in Holders(s'.t, k) && u !in Holders(s.t, k) ==> k == req.key && u == req.uuid)
  {
    if BadMax(req.max) {
      SameBooksSound(s, Lock(s, ws, req, env), {}, prior, env);
    } else {
      var s1, k, ttl := Register(s, ws, req, env), req.key, SingleTtl(s, req.ttl);
      RegisterSame(s, ws, req, env);
      if k !in s1.t.locks {
        var m: Pos := if req.max.Int? then req.max.n else 1;
        MaterializeSame(s1.t, k, m, env);
        LockNewSound(s, s1.(t := Materialize(s1.t, k, m, env)), ws, req, ttl, env, prior);
      } else {
        SetMaxAtKey(s1.t, k, req.max);
        LockOldSound(s, s1.(t := SetMax(s1.t, k, req.max)), ws, req, ttl, env, prior);
      }
    }
  }

  /** The key is new: the request is granted. */
  lemma LockNewSound(s: State, s2: State, ws: Ws, req: LockReq, ttl: Millis, env: Env, prior: iset<Uuid>)
    requires Sound(s, {}) && NewWhole(s, prior) && LockFresh(s.t, req) && req.key !in s.t.locks
    requires SameBooks(s.t, s2.t) && s2.composites == s.composites && req.key in s2.t.locks
    ensures var s' := GrantNow(s2, ws, req, ttl, env);
      && Sound(s', {}) && NewWhole(s', prior) && KeepsRecords(s, s') && Stays(s.t, s'.t)
      && (forall k, u :: u in Holders(s'.t, k) && u !in Holders(s.t, k) ==> k == req.key && u == req.uuid)
  {
    SameBooksSound(s, s2, {}, prior, env);
    SameBooksLoose(s.t, s2.t, req.key, req.uuid);
    EmptyLoose(s.t, req);
    GrantNowSound(s2, ws, req, ttl, env, prior);
    SameHoldersStay(s.t, s2.t, GrantNow(s2, ws, req, ttl, env).t);
  }

  /** The key is known, and its max updated: the request is granted, queued or refused. */
  lemma LockOldSound(s: State, s2: State, ws: Ws, req: LockReq, ttl: Millis, env: Env, prior: iset<Uuid>)
    requires Sound(s, {}) && NewWhole(s, prior) && NoLostWakeup(s.t) && LockFresh(s.t, req)
    requires SameBooks(s.t, s2.t) && s2.composites == s.composites && req.key in s2.t.locks
    requires MaxOf(s2.t, req.key) == if req.max.Int? then req.max.n else MaxOf(s.t, req.key)
    ensures var s' := Decide(s2, ws, req, ttl, env);
      && Sound(s', {}) && NewWhole(s', prior) && KeepsRecords(s, s') && Stays(s.t, s'.t)
      && (forall k, u :: u in Holders(s'.t, k) && u !in Holders(s.t, k) ==> k == req.key && u == req.uuid)
  {
    SameBooksSound(s, s2, {}, prior, env);
    SameBooksLoose(s.t, s2.t, req.key, req.uuid);
    if !Full(s2.t, req.key) { GrantedLoose(s.t, s2.t, req); }
    DecideSound(s2, ws, req, ttl, env, prior);
    SameHoldersStay(s.t, s2.t, Decide(s2, ws, req, ttl, env).t);
  }

  lemma SameHoldersStay(t: Table, t2: Table, t': Table)
    requires SameBooks(t, t2) && Stays(t2, t')
    ensures Stays(t, t') && forall k, u :: u in Holders(t', k) && u !in Holders(t, k) ==> u !in Holders(t2, k)
  {
    forall k, u | u in Holders(t, k) ensures SameHolder(t, t', k, u) { assert SameHolder(t2, t', k, u); }
    forall k, u | u in Holders(t', k) && u !in Holders(t, k)
      ensures u !in Holders(t2, k)
    {
      assert Holders(t2, k) == Holders(t, k);
    }
  }

  lemma EmptyLoose(t: Table, req: LockReq)
    requires LockFresh(t, req) && req.key !in t.locks
    ensures Loose(t, req.uuid)
  {
    assert forall w :: !Waits(t, req.key, w);
  }

  lemma SameBooksLoose(t: Table, t': Table, k: Key, u: Uuid)
    requires SameBooks(t, t')
    ensures Loose(t, u) ==> Loose(t', u)
    ensures FreshFor(t, k, u) ==> FreshFor(t', k, u)
  {
    assert forall x, w :: Waits(t', x, w) <==> Waits(t, x, w);
  }

  // ----- acquire-many -----

  lemma DrawSound(s: State, prior: iset<Uuid>)
    requires Sound(s, {}) && NewWhole(s, prior)
    ensures var s0 := DrawOne(s);
      && Sound(s0, {}) && NewWhole(s0, prior) && Unused(s0, Minted(s.t.minted))
      && forall k :: Holders(s0.t, k) == Holders(s.t, k)
  {
    var s0 := DrawOne(s);
    assert forall k :: Queue(s0.t, k) == Queue(s.t, k);
    assert forall k, w :: Waits(s0.t, k, w) <==> Waits(s.t, k, w);
    FewerWaitersBooks(s.t, s0.t, {});
    FewerWaitersRegistry(s, s0);
    SameRecordsWhole(s, s0, prior);
  }

  /** A granted request adds its own new holders and disturbs none. */
  ghost predicate AddsMinted(t: Table, t': Table, from: nat) {
    Stays(t, t') && forall k, u :: u in Holders(t', k) && u !in Holders(t, k) ==> u.Minted? && from <= u.n
  }

  lemma AcquireManySound(s: State, ws: Ws, req: ManyReq, env: Env, prior: iset<Uuid>)
    requires Sound(s, {}) && NewWhole(s, prior)
    ensures var s' := AcquireMany(s, ws, req, env);
      && Sound(s', {}) && NewWhole(s', prior) && KeepsRecords(s, s') && AddsMinted(s.t, s'.t, s.t.minted)
  {
    if BadKeys(req.keys) {
      SameBooksSound(s, AcquireMany(s, ws, req, env), {}, prior, env);
    } else {
      var ks := RequestedKeys(req.keys.entries);
      var w := Waiter(ws, req.uuid, ManyTtl(s, req.ttl), Some(CompositeAsk(ks, Minted(s.t.minted))));
      DrawSound(s, prior);
      AskManySound(DrawOne(s), w, req.wait, env, prior);
      AddsMintedFrom(s.t, DrawOne(s).t, AcquireMany(s, ws, req, env).t);
    }
  }

  lemma AddsMintedFrom(t: Table, t0: Table, t': Table)
    requires (forall k :: Holders(t0, k) == Holders(t, k)) && t.minted <= t0.minted && AddsMinted(t0, t', t0.minted)
    ensures AddsMinted(t, t', t.minted)
  {
    forall k, u | u in Holders(t, k) ensures SameHolder(t, t', k, u) { assert SameHolder(t0, t', k, u); }
  }

  lemma AskManySound(s: State, w: Waiter, wait: bool, env: Env, prior: iset<Uuid>)
    requires w.composite.Some? && Unused(s, w.composite.value.lockUuid) && Sound(s, {}) && NewWhole(s, prior)
    ensures var s' := AskMany(s, w, wait, env);
      && Sound(s', {}) && NewWhole(s', prior) && KeepsRecords(s, s') && AddsMinted(s.t, s'.t, s.t.minted)
  {
    if TryAll(s.t, w, env).contended.None? {
      CompositeBooks(s.t, w, env, {});
      AnnouncedRegistry(s, w, env);
      AnnouncedWhole(s, w, env, prior);
      CompositeAdds(s.t, w, env);
    } else {
      RefuseSound(s, AskMany(s, w, wait, env), w, wait, env, prior);
    }
  }

  lemma CompositeAdds(t: Table, w: Waiter, env: Env)
    requires w.composite.Some? && TryAll(t, w, env).contended.None? && Drawn(t)
    ensures AddsMinted(t, TryAll(t, w, env).t, t.minted)
  {
    var t' := TryAll(t, w, env).t;
    forall k, u | u in Holders(t, k) ensures SameHolder(t, t', k, u) { CompositeAtKey(t, w, env, k); }
    forall k, u | u in Holders(t', k) && u !in Holders(t, k)
      ensures u.Minted? && t.minted <= u.n
    {
      CompositeAtKey(t, w, env, k);
    }
  }

  /** A refused request, queued where it was stopped or (without waiting) nowhere, leaves every
      holder, deadline row and composite as it was. */
  lemma RefuseSound(s: State, s': State, w: Waiter, wait: bool, env: Env, prior: iset<Uuid>)
    requires w.composite.Some? && TryAll(s.t, w, env).contended.Some? && Unused(s, w.composite.value.lockUuid)
    requires Sound(s, {}) && NewWhole(s, prior)
    requires s' == AskMany(s, w, wait, env)
    ensures Sound(s', {}) && NewWhole(s', prior)
    ensures s'.composites == s.composites && s'.t.deadlines == s.t.deadlines
    ensures forall k :: Holders(s'.t, k) == Holders(s.t, k)
  {
    var a := TryAll(s.t, w, env);
    RefusedState(s, w, wait, env);
    StoppedBooks(s.t, w, env, {});
    StoppedRegistry(s, w, env, {});
    EnqueueJoins(a.t, a.contended.value, w);
    JoinBooks(a.t, Enqueue(a.t, a.contended.value, w), a.contended.value, w, {});
    SameStateRegistry(if wait then RetryMany(s, w, env) else s.(t := a.t), s');
    SameRecordsWhole(s, s', prior);
  }

  lemma RefusedState(s: State, w: Waiter, wait: bool, env: Env)
    requires w.composite.Some? && TryAll(s.t, w, env).contended.Some?
    ensures var (a, s') := (TryAll(s.t, w, env), AskMany(s, w, wait, env));
      s'.composites == s.composites && s'.t == if wait then Enqueue(a.t, a.contended.value, w) else a.t
  {}

  lemma SameStateRegistry(s: State, s': State)
    requires Registry(s) && s'.t == s.t && s'.composites == s.composites
    ensures Registry(s')
  {
    SameBooksRegistry(s, s');
  }

  // ----- giving up -----

  lemma GiveUpSound(s: State, k: Key, u: Uuid, env: Env, prior: iset<Uuid>)
    requires Sound(s, {}) && NewWhole(s, prior)
    ensures var s' := GiveUp(s, k, u);
      && Sound(s', {}) && NewWhole(s', prior) && KeepsRecords(s, s')
      && (forall x :: Holders(s'.t, x) == Holders(s.t, x)) && s'.t.deadlines == s.t.deadlines
      && (forall x, w :: Waits(s'.t, x, w) <==> Waits(s.t, x, w) && !(x == k && w.uuid == u))
      && (forall x :: Queue(s'.t, x) == if x == k then Remove(Queue(s.t, k), u) else Queue(s.t, x))
  {
    var s' := GiveUp(s, k, u);
    GiveUpQueues(s, k, u);
    RemovedWaiters(s.t, s'.t, k, u);
    FewerWaitersBooks(s.t, s'.t, {});
    FewerWaitersRegistry(s, s');
    SameRecordsWhole(s, s', prior);
  }

  lemma GiveUpQueues(s: State, k: Key, u: Uuid)
    ensures var s' := GiveUp(s, k, u);
      && s'.composites == s.composites && s'.t.minted == s.t.minted && s'.t.deadlines == s.t.deadlines
      && (forall x :: Holders(s'.t, x) == Holders(s.t, x))
      && (forall x :: Queue(s'.t, x) == if x == k then Remove(Queue(s.t, k), u) else Queue(s.t, x))
  {}

  lemma RemovedWaiters(t: Table, t': Table, k: Key, u: Uuid)
    requires QueuesDistinct(t) && t'.minted == t.minted && t'.deadlines == t.deadlines
    requires forall x :: Holders(t', x) == Holders(t, x)
    requires forall x :: Queue(t', x) == if x == k then Remove(Queue(t, k), u) else Queue(t, x)
    ensures FewerWaiters(t, t')
    ensures forall x, w :: Waits(t', x, w) <==> Waits(t, x, w) && !(x == k && w.uuid == u)
  {
    RemoveAllKeeps(Queue(t, k), {u});
    assert forall x, w :: Waits(t', x, w) <==> Waits(t, x, w) && !(x == k && w.uuid == u);
  }
}

/** What each step of Broker1 does, as a function on the broker's state. */
module BrokerSpec {
  import opened BrokerTypes

  // ----- LinkedQueue: insertion order, one entry per uuid -----

  predicate Contains(q: seq<Waiter>, u: Uuid) {
    exists i :: 0 <= i < |q| && q[i].uuid == u
  }

  function RemoveAll(q: seq<Waiter>, us: set<Uuid>): (r: seq<Waiter>)
    ensures |r| <= |q|
  {
    if q == [] then []
    else if q[0].uuid in us then RemoveAll(q[1..], us)
    else [q[0]] + RemoveAll(q[1..], us)
  }

  function Remove(q: seq<Waiter>, u: Uuid): seq<Waiter> {
    RemoveAll(q, {u})
  }

  /** Dequeue until a waiter with a writable socket turns up; when none does, the last one
      dequeued is used all the same. */
  function NextWaiter(q: seq<Waiter>, live: set<Ws>): (r: (Waiter, seq<Waiter>))
    requires q != []
    ensures |r.1| < |q|
  {
    if |q| == 1 || q[0].ws in live then (q[0], q[1..]) else NextWaiter(q[1..], live)
  }

  // ----- Fencing authority -----

  function Max(a: int, b: int): int { if a >= b then a else b }

  function Raised(f: Fence, v: int): Fence {
    if f.hardened && v > f.watermark
    then f.(watermark := v, durable := if f.durable.Some? then Some(v) else None)
    else f
  }

  function Seed(f: Fence, now: int): int {
    if f.hardened then Max(now, Max(f.floor, f.watermark)) else now
  }

  /** What raising the watermark to `v` writes to the durable cell. */
  function Writes(f: Fence, v: int): seq<Note> {
    if f.hardened && v > f.watermark && f.durable.Some? then [Wrote(v)] else []
  }

  // ----- Pieces shared by the steps -----

  function Send(s: State, env: Env, f: Frame): State {
    if f.to in env.live then s.(out := s.out + [f], sentAt := s.sentAt + [|s.t.journal|]) else s
  }

  function DefaultLockObj(seed: int, max: Pos): LockObj {
    LockObj(max, max, seed, map[], [], {}, {}, None)
  }

  /** getDefaultLockObject followed by locks.set, when the key has no lock object. */
  function Materialize(t: Table, k: Key, max: Pos, env: Env): Table {
    if k in t.locks then t
    else
      var seed := Seed(t.fence, env.now);
      t.(locks := t.locks[k := DefaultLockObj(seed, max)],
         fence := Raised(t.fence, seed),
         journal := t.journal + Writes(t.fence, seed))
  }

  function Deadline(env: Env, u: Uuid, ttl: Millis): Millis {
    if ttl.Infinity? then Infinity else Finite(env.clock(u) + ttl.n)
  }

  /** Take the key's next token and install holder `u`, with its deadline row. */
  function Grant(t: Table, k: Key, u: Uuid, ws: Ws, ttl: Millis, composite: Option<Uuid>, env: Env): Table
    requires k in t.locks
  {
    var o := t.locks[k];
    var token := o.nextToken + 1;
    var expiresAt := Deadline(env, u, ttl);
    var holders := o.holders[u := Holder(ws, token, composite, expiresAt)];
    t.(locks := t.locks[k := o.(nextToken := token, holders := holders)],
       deadlines := if expiresAt.Finite? then t.deadlines[u := Row(k, expiresAt.n)] else t.deadlines,
       fence := Raised(t.fence, token),
       journal := t.journal + Writes(t.fence, token) + [Took(Mint(k, token), |holders|, o.maxEver)])
  }

  /** Drop holder `u` of `k` and its deadline row. */
  function Drop(t: Table, k: Key, u: Uuid): Table {
    t.(deadlines := t.deadlines - {u},
       locks := if k in t.locks then t.locks[k := t.locks[k].(holders := t.locks[k].holders - {u})] else t.locks)
  }

  function SetQueue(t: Table, k: Key, q: seq<Waiter>): Table
    requires k in t.locks
  {
    t.(locks := t.locks[k := t.locks[k].(notify := q)])
  }

  // ----- Multi-key attempts -----

  /** The table after a walk, how many keys it granted, to which holders with which tokens,
      and the full key that stopped it. */
  datatype Attempt = Attempt(t: Table, done: nat, us: map<Key, Uuid>, toks: map<Key, int>, contended: Option<Key>)

  /** Grant one member key to a newly minted holder. */
  function GrantMember(t: Table, k: Key, ws: Ws, ttl: Millis, lockUuid: Uuid, env: Env): Table {
    var t0 := Materialize(t, k, 1, env);
    var t1 := t0.(minted := t.minted + 1, locks := t0.locks[k := t0.locks[k].(emptiedAt := None)]);
    Grant(t1, k, Minted(t.minted), ws, ttl, Some(lockUuid), env)
  }

  function TokenOf(t: Table, k: Key): int {
    if k in t.locks then t.locks[k].nextToken else 0
  }

  /** Walk the keys in order, granting each, up to the first full key. */
  function TryKeys(t: Table, ks: seq<Key>, ws: Ws, ttl: Millis, lockUuid: Uuid, env: Env): Attempt
    decreases |ks|
  {
    if ks == [] then Attempt(t, 0, map[], map[], None)
    else if Full(t, ks[0]) then Attempt(t, 0, map[], map[], Some(ks[0]))
    else
      var t1 := GrantMember(t, ks[0], ws, ttl, lockUuid, env);
      var r := TryKeys(t1, ks[1..], ws, ttl, lockUuid, env);
      Attempt(r.t, r.done + 1, r.us[ks[0] := Minted(t.minted)], r.toks[ks[0] := TokenOf(t1, ks[0])], r.contended)
  }

  /** Take back what a failed attempt granted. */
  function Rollback(t: Table, ks: seq<Key>, us: map<Key, Uuid>): Table
    decreases |ks|
  {
    if ks == [] then t
    else Rollback(if ks[0] in us then Drop(t, ks[0], us[ks[0]]) else t, ks[1..], us)
  }

  function Enqueue(t: Table, k: Key, w: Waiter): Table {
    if k !in t.locks || Contains(Queue(t, k), w.uuid) then t else SetQueue(t, k, Queue(t, k) + [w])
  }

  /** The walk over all of a waiter's keys, rolled back when it was stopped. */
  function TryAll(t: Table, w: Waiter, env: Env): Attempt
    requires w.composite.Some?
  {
    var a := TryKeys(t, w.composite.value.allKeys, w.ws, w.ttl, w.composite.value.lockUuid, env);
    if a.contended.None? then a else a.(t := Rollback(a.t, w.composite.value.allKeys, a.us))
  }

  /** Register and announce a composite whose keys have all been granted. */
  function Announce(s: State, w: Waiter, a: Attempt, env: Env): State
    requires w.composite.Some?
  {
    var ask := w.composite.value;
    Send(s.(t := a.t, composites := s.composites[ask.lockUuid := Composite(ask.allKeys, a.us, a.toks)]),
         env, ManyGranted(w.ws, w.uuid, ask.allKeys, ask.lockUuid, a.toks))
  }

  /** tryGrantAcquireManyFromQueue: a failed attempt goes to the queue of the key that stopped it. */
  function RetryMany(s: State, w: Waiter, env: Env): State
    requires w.composite.Some?
  {
    var a := TryAll(s.t, w, env);
    if a.contended.Some? then s.(t := Enqueue(a.t, a.contended.value, w)) else Announce(s, w, a, env)
  }

  function GrantQueued(s: State, k: Key, w: Waiter, env: Env): State
    requires k in s.t.locks
  {
    var t1 := Grant(s.t, k, w.uuid, w.ws, w.ttl, None, env);
    Send(s.(t := t1), env, LockFrame(w.ws, w.uuid, k, |Queue(s.t, k)|, true, Some(TokenOf(t1, k))))
  }
}

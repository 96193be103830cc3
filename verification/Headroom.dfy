/** Draining under the ceiling of the hardened broker: how much headroom a queue needs, and why the
    64 tokens its gate asks for are not enough. */
module Headroom {
  import opened BrokerTypes
  import opened BrokerSpec
  import opened BrokerSteps
  import opened Drains
  import opened PlainDrains
  import opened Fencing
  import opened FencedRuns
  import opened WatermarkText
  import opened Hardened

  /** Serving `w` on `k` takes no value the ceiling refuses. */
  ghost predicate ServeSafe(t: Table, k: Key, w: Waiter, env: Env) {
    if w.composite.Some?
    then NeverExhausts(t, w.composite.value.allKeys, w.ws, w.ttl, w.composite.value.lockUuid, env)
    else TokenOf(t, k) < MAX_FENCING_TOKEN
  }

  /** Nor does any serve of the whole drain. */
  ghost predicate DrainSafe(s: State, k: Key, env: Env)
    decreases |Queue(s.t, k)|
  {
    Queue(s.t, k) == [] || Full(s.t, k) ||
      (ServeSafe(Popped(s, k, env), k, Head(s, k, env), env) && DrainSafe(ServeNext(s, k, env), k, env))
  }

  // ----- Headroom for everybody in the queue -----

  /** How many tokens a waiter asks for, and a queue. */
  function Wants(w: Waiter): nat {
    if w.composite.Some? then |w.composite.value.allKeys| else 1
  }

  function AllWant(q: seq<Waiter>): nat {
    if q == [] then 0 else Wants(q[0]) + AllWant(q[1..])
  }

  lemma {:induction false} NextWants(q: seq<Waiter>, live: set<Ws>)
    requires q != []
    ensures var (w, rest) := NextWaiter(q, live); Wants(w) + AllWant(rest) <= AllWant(q)
  {
    if |q| > 1 && q[0].ws !in live { NextWants(q[1..], live); }
  }

  lemma {:induction false} RollbackFence(t: Table, ks: seq<Key>, us: map<Key, Uuid>)
    ensures Rollback(t, ks, us).fence == t.fence
    decreases |ks|
  {
    if ks != [] { RollbackFence(if ks[0] in us then Drop(t, ks[0], us[ks[0]]) else t, ks[1..], us); }
  }

  lemma RetryFence(s: State, w: Waiter, env: Env)
    requires w.composite.Some?
    ensures var ask := w.composite.value;
      RetryMany(s, w, env).t.fence == TryKeys(s.t, ask.allKeys, w.ws, w.ttl, ask.lockUuid, env).t.fence
  {
    var ask := w.composite.value;
    var a := TryKeys(s.t, ask.allKeys, w.ws, w.ttl, ask.lockUuid, env);
    RollbackFence(a.t, ask.allKeys, a.us);
  }

  /** One waiter is served on a popped queue, and takes at most what it wants. */
  lemma ServedWithRoom(s: State, s1: State, k: Key, w: Waiter, env: Env, ceiling: int)
    requires k in s.t.locks && Trusted(s) && s.t.fence.hardened
    requires s1 == if w.composite.Some? then RetryMany(s, w, env) else GrantQueued(s, k, w, env)
    requires Max(s.t.fence.watermark, env.now) + Wants(w) <= ceiling <= MAX_FENCING_TOKEN
    ensures ServeSafe(s.t, k, w, env) && s1.t.fence.watermark <= Max(s.t.fence.watermark, env.now) + Wants(w)
  {
    if w.composite.Some? {
      var ask, top := w.composite.value, Max(s.t.fence.watermark, env.now) + Wants(w);
      WalkHasRoom(s.t, ask.allKeys, w.ws, w.ttl, ask.lockUuid, env, top);
      RetryFence(s, w, env);
    } else {
      GrantRaises(s.t, k, w.uuid, w.ws, w.ttl, env);
    }
  }

  lemma PoppedTrusted(s: State, k: Key, env: Env)
    requires Queue(s.t, k) != [] && Trusted(s)
    ensures Trusted(s.(t := Popped(s, k, env))) && Popped(s, k, env).fence == s.t.fence
  {
    SetQueueSheds(s.t, k, Rest(s, k, env));
    ShedFollows(s, s.(t := Popped(s, k, env)), env.now);
  }

  lemma ServeRest(s: State, k: Key, env: Env)
    requires Queue(s.t, k) != [] && !Full(s.t, k)
    ensures Queue(ServeNext(s, k, env).t, k) == Rest(s, k, env)
  {
    var s1, w := s.(t := Popped(s, k, env)), Head(s, k, env);
    if w.composite.Some? { RetryLeavesQueue(s1, k, w, env); }
  }

  lemma HeadHasRoom(s: State, k: Key, env: Env, s': State, ceiling: int)
    requires Trusted(s) && s.t.fence.hardened && Queue(s.t, k) != [] && !Full(s.t, k) && s' == ServeNext(s, k, env)
    requires Max(s.t.fence.watermark, env.now) + Wants(Head(s, k, env)) <= ceiling <= MAX_FENCING_TOKEN
    ensures ServeSafe(Popped(s, k, env), k, Head(s, k, env), env)
    ensures s'.t.fence.watermark <= Max(s.t.fence.watermark, env.now) + Wants(Head(s, k, env))
  {
    PoppedTrusted(s, k, env);
    ServedWithRoom(s.(t := Popped(s, k, env)), s', k, Head(s, k, env), env, ceiling);
  }

  lemma ServeHasRoom(s: State, k: Key, env: Env, s': State, ceiling: int)
    requires Trusted(s) && s.t.fence.hardened && Queue(s.t, k) != [] && !Full(s.t, k) && s' == ServeNext(s, k, env)
    requires Max(s.t.fence.watermark, env.now) + AllWant(Queue(s.t, k)) <= ceiling <= MAX_FENCING_TOKEN
    ensures ServeSafe(Popped(s, k, env), k, Head(s, k, env), env) && Trusted(s') && s'.t.fence.hardened
    ensures Max(s'.t.fence.watermark, env.now) + AllWant(Queue(s'.t, k)) <= ceiling
  {
    NextWants(Queue(s.t, k), env.live);
    HeadHasRoom(s, k, env, s', ceiling);
    ServeFollows(s, k, env);
    ServeRest(s, k, env);
  }

  /** With headroom for all that the queue wants together, a drain never meets the ceiling. */
  lemma {:induction false} DrainHasRoom(s: State, k: Key, env: Env, ceiling: int)
    requires Trusted(s) && s.t.fence.hardened
    requires Max(s.t.fence.watermark, env.now) + AllWant(Queue(s.t, k)) <= ceiling <= MAX_FENCING_TOKEN
    ensures DrainSafe(s, k, env) && Drain(s, k, env).t.fence.watermark <= ceiling
    decreases |Queue(s.t, k)|
  {
    if Queue(s.t, k) != [] && !Full(s.t, k) {
      ServeHasRoom(s, k, env, ServeNext(s, k, env), ceiling);
      DrainHasRoom(ServeNext(s, k, env), k, env, ceiling);
    }
  }

  /** The gate of the drain is enough for a queue that wants no more than 64 tokens in all. */
  lemma GateSuffices(s: State, k: Key, env: Env)
    requires Trusted(s) && s.t.fence.hardened && env.now <= MAX_TIME
    requires HasHeadroom(s.t.fence, MAX_COMPOSITE_KEYS) && AllWant(Queue(s.t, k)) <= MAX_COMPOSITE_KEYS
    ensures DrainSafe(s, k, env)
  {
    DrainHasRoom(s, k, env, MAX_FENCING_TOKEN);
  }

  // ----- Exactly how much -----

  /** A drain of single-key waiters: exactly when the ceiling is above the tokens of all it grants. */
  lemma {:induction false} PlainDrainSafe(s: State, k: Key, env: Env)
    requires Plain(s.t, k, env.live)
    ensures DrainSafe(s, k, env) <==> Room(s.t, k) == 0 || TokenOf(s.t, k) + Room(s.t, k) <= MAX_FENCING_TOKEN
    decreases |Queue(s.t, k)|
  {
    if Queue(s.t, k) != [] && !Full(s.t, k) {
      ServePlain(s, k, env);
      ServeTakesRoom(s, k, env);
      PlainDrainSafe(ServeNext(s, k, env), k, env);
    }
  }

  lemma FreshMember(t: Table, k: Key, ws: Ws, ttl: Millis, lockUuid: Uuid, env: Env)
    requires t.fence.hardened && t.fence.floor <= t.fence.watermark && env.now <= t.fence.watermark && k !in t.locks
    ensures var t1 := GrantMember(t, k, ws, ttl, lockUuid, env);
      && t1.fence.hardened && t1.fence.floor == t.fence.floor && t1.fence.watermark == t.fence.watermark + 1
      && TokenOf(t1, k) == t1.fence.watermark && t1.locks.Keys == t.locks.Keys + {k}
  {}

  /** A walk over keys without lock objects, by a clock that is not ahead of the watermark. */
  lemma {:induction false} FreshWalk(t: Table, ks: seq<Key>, ws: Ws, ttl: Millis, lockUuid: Uuid, env: Env)
    requires t.fence.hardened && t.fence.floor <= t.fence.watermark && 0 <= env.now <= t.fence.watermark
    requires Distinct(ks) && (forall k :: k in ks ==> k !in t.locks)
    ensures NeverExhausts(t, ks, ws, ttl, lockUuid, env) <==> ks == [] || t.fence.watermark + |ks| <= MAX_FENCING_TOKEN
    decreases |ks|
  {
    if ks != [] {
      FreshMember(t, ks[0], ws, ttl, lockUuid, env);
      FreshWalk(GrantMember(t, ks[0], ws, ttl, lockUuid, env), ks[1..], ws, ttl, lockUuid, env);
    }
  }
}

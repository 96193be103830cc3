/** What serving one waiter, and a whole drain, do to each key. */
module Drains {
  import opened BrokerTypes
  import opened BrokerSpec
  import opened Attempts
  import opened BrokerSteps

  /** The waiter `ServeNext` serves, the queue it leaves, the table it serves it in, and the
      multi-key attempt made for it. */
  function Head(s: State, k: Key, env: Env): Waiter
    requires Queue(s.t, k) != []
  { NextWaiter(Queue(s.t, k), env.live).0 }

  function Rest(s: State, k: Key, env: Env): seq<Waiter>
    requires Queue(s.t, k) != []
  { NextWaiter(Queue(s.t, k), env.live).1 }

  function Popped(s: State, k: Key, env: Env): Table
    requires Queue(s.t, k) != []
  { SetQueue(s.t, k, Rest(s, k, env)) }

  /** The waiter comes from the queue, and what is left is what stood behind it. */
  lemma {:induction false} NextWaiterSplits(q: seq<Waiter>, live: set<Ws>)
    requires q != []
    ensures var (w, rest) := NextWaiter(q, live);
      var m := |q| - |rest|;
      0 < m <= |q| && rest == q[m..] && w == q[m - 1]
  {
    if |q| > 1 && q[0].ws !in live {
      NextWaiterSplits(q[1..], live);
    }
  }

  lemma PoppedAtKey(s: State, k: Key, env: Env, x: Key)
    requires Queue(s.t, k) != []
    ensures var t1 := Popped(s, k, env);
      && t1.minted == s.t.minted && t1.deadlines == s.t.deadlines && t1.locks.Keys == s.t.locks.Keys
      && Holders(t1, x) == Holders(s.t, x) && MaxOf(t1, x) == MaxOf(s.t, x)
      && Queue(t1, x) == if x == k then Rest(s, k, env) else Queue(s.t, x)
  {}

  /** Serving a single-key waiter. */
  lemma ServeSingle(s: State, k: Key, env: Env, x: Key)
    requires Queue(s.t, k) != [] && !Full(s.t, k) && Head(s, k, env).composite.None?
    ensures var (s', w) := (ServeNext(s, k, env), Head(s, k, env));
      && s'.t.minted == s.t.minted && s'.composites == s.composites && s'.t.locks.Keys == s.t.locks.Keys
      && MaxOf(s'.t, x) == MaxOf(s.t, x)
      && Queue(s'.t, x) == (if x == k then Rest(s, k, env) else Queue(s.t, x))
      && Holders(s'.t, x) == (if x == k
           then Holders(s.t, k)[w.uuid := Holder(w.ws, TokenOf(s'.t, k), None, Deadline(env, w.uuid, w.ttl))]
           else Holders(s.t, x))
      && s'.t.deadlines == (if w.ttl.Infinity? then s.t.deadlines
                            else s.t.deadlines[w.uuid := Row(k, env.clock(w.uuid) + w.ttl.n)])
  {
    PoppedAtKey(s, k, env, x);
    PoppedAtKey(s, k, env, k);
    SingleGranted(s.(t := Popped(s, k, env)), k, Head(s, k, env), env, x);
  }

  lemma SingleGranted(s: State, k: Key, w: Waiter, env: Env, x: Key)
    requires k in s.t.locks
    ensures var s' := GrantQueued(s, k, w, env);
      && s'.t.minted == s.t.minted && s'.composites == s.composites && s'.t.locks.Keys == s.t.locks.Keys
      && MaxOf(s'.t, x) == MaxOf(s.t, x) && Queue(s'.t, x) == Queue(s.t, x)
      && Holders(s'.t, x) == (if x == k
           then Holders(s.t, k)[w.uuid := Holder(w.ws, TokenOf(s'.t, k), None, Deadline(env, w.uuid, w.ttl))]
           else Holders(s.t, x))
      && s'.t.deadlines == (if w.ttl.Infinity? then s.t.deadlines
                            else s.t.deadlines[w.uuid := Row(k, env.clock(w.uuid) + w.ttl.n)])
  {}

  /** Serving a composite that is granted. */
  lemma ServeGranted(s: State, k: Key, env: Env, x: Key)
    requires Queue(s.t, k) != [] && !Full(s.t, k) && Head(s, k, env).composite.Some?
    requires TryAll(Popped(s, k, env), Head(s, k, env), env).contended.None?
    ensures var (s', w) := (ServeNext(s, k, env), Head(s, k, env));
      var (ask, a) := (w.composite.value, TryAll(Popped(s, k, env), w, env));
      && s'.t == a.t && s.t.minted <= s'.t.minted && (x in s.t.locks ==> x in s'.t.locks)
      && s'.composites == s.composites[ask.lockUuid := Composite(ask.allKeys, a.us, a.toks)]
      && MaxOf(s'.t, x) == MaxOf(s.t, x)
      && Queue(s'.t, x) == (if x == k then Rest(s, k, env) else Queue(s.t, x))
      && (x in a.us <==> x in a.toks) && (x in a.us <==> x in ask.allKeys)
      && (x in a.us ==>
            && a.us[x].Minted? && s.t.minted <= a.us[x].n < s'.t.minted && !Full(s.t, x)
            && Holders(s'.t, x) == Holders(s.t, x)[a.us[x] :=
                 Holder(w.ws, a.toks[x], Some(ask.lockUuid), Deadline(env, a.us[x], w.ttl))])
      && (x !in a.us ==> Holders(s'.t, x) == Holders(s.t, x))
  {
    var w := Head(s, k, env);
    PoppedAtKey(s, k, env, x);
    TryKeysAtKey(Popped(s, k, env), w.composite.value.allKeys, w.ws, w.ttl, w.composite.value.lockUuid, env, x);
  }

  /** Serving a composite that is stopped: it moves to the queue of the key that stopped it. */
  lemma ServeStopped(s: State, k: Key, env: Env, x: Key)
    requires Queue(s.t, k) != [] && !Full(s.t, k) && Head(s, k, env).composite.Some? && Drawn(s.t)
    requires TryAll(Popped(s, k, env), Head(s, k, env), env).contended.Some?
    ensures var (s', w) := (ServeNext(s, k, env), Head(s, k, env));
      var c := TryAll(Popped(s, k, env), w, env).contended.value;
      && s.t.minted <= s'.t.minted && (x in s.t.locks ==> x in s'.t.locks)
      && s'.composites == s.composites && s'.out == s.out && s'.t.deadlines == s.t.deadlines
      && c != k && c in w.composite.value.allKeys && Full(s.t, c)
      && Holders(s'.t, x) == Holders(s.t, x) && MaxOf(s'.t, x) == MaxOf(s.t, x)
      && Queue(s'.t, x) == (if x == k then Rest(s, k, env)
                            else if x == c && !Contains(Queue(s.t, c), w.uuid) then Queue(s.t, c) + [w]
                            else Queue(s.t, x))
  {
    var t1, w := Popped(s, k, env), Head(s, k, env);
    var a := TryAll(t1, w, env);
    var c := a.contended.value;
    forall y ensures Holders(t1, y) == Holders(s.t, y) && MaxOf(t1, y) == MaxOf(s.t, y) { PoppedAtKey(s, k, env, y); }
    assert Drawn(t1);
    FailedStop(t1, w, env);
    FailedAtKey(t1, w, env, x);
    FailedAtKey(t1, w, env, c);
    FailedDeadlines(t1, w, env);
    PoppedAtKey(s, k, env, c);
  }
}

/** What holds between steps, and that serving waiters keeps it. */
module Invariants {
  import opened BrokerTypes
  import opened BrokerSpec
  import opened Attempts
  import opened BrokerSteps
  import opened Drains

  /** A queued waiter comes with a full key: nobody waits for a free slot. */
  ghost predicate Served(t: Table, k: Key) {
    Queue(t, k) != [] ==> Full(t, k)
  }

  ghost predicate NoLostWakeup(t: Table) {
    forall k :: Served(t, k)
  }

  // ----- Serving one waiter -----

  lemma ServeKeepsDrawn(s: State, k: Key, env: Env)
    requires Queue(s.t, k) != [] && !Full(s.t, k) && Drawn(s.t)
    ensures Drawn(ServeNext(s, k, env).t) && s.t.minted <= ServeNext(s, k, env).t.minted
  {
    var s', w := ServeNext(s, k, env), Head(s, k, env);
    if w.composite.None? {
      forall x, u | u in Holders(s'.t, x) && u.Minted? ensures u.n < s'.t.minted {
        ServeSingle(s, k, env, x);
      }
      ServeSingle(s, k, env, k);
    } else {
      var ask, a := w.composite.value, TryAll(Popped(s, k, env), w, env);
      PoppedAtKey(s, k, env, k);
      if a.contended.None? {
        ServeGranted(s, k, env, k);
        forall x, u | u in Holders(s'.t, x) && u.Minted? ensures u.n < s'.t.minted {
          ServeGranted(s, k, env, x);
        }
        forall u | u in s'.t.deadlines && u.Minted? ensures u.n < s'.t.minted {
          TryKeysAtUuid(Popped(s, k, env), ask.allKeys, w.ws, w.ttl, ask.lockUuid, env, u);
        }
      } else {
        ServeStopped(s, k, env, k);
        forall x, u | u in Holders(s'.t, x) && u.Minted? ensures u.n < s'.t.minted {
          ServeStopped(s, k, env, x);
        }
      }
    }
  }

  /** Serving a waiter of `k` leaves no other key's waiters short. */
  lemma ServeKeepsServed(s: State, k: Key, env: Env, x: Key)
    requires Queue(s.t, k) != [] && !Full(s.t, k) && Drawn(s.t)
    requires x != k && Served(s.t, x)
    ensures Served(ServeNext(s, k, env).t, x)
  {
    var w := Head(s, k, env);
    if w.composite.None? {
      ServeSingle(s, k, env, x);
    } else if TryAll(Popped(s, k, env), w, env).contended.None? {
      ServeGranted(s, k, env, x);
    } else {
      ServeStopped(s, k, env, x);
    }
  }

  /** A drain of `k` serves `k` and keeps every other key served. */
  lemma {:induction false} DrainServes(s: State, k: Key, env: Env)
    requires Drawn(s.t) && forall x :: x != k ==> Served(s.t, x)
    ensures Drawn(Drain(s, k, env).t) && NoLostWakeup(Drain(s, k, env).t)
    ensures s.t.minted <= Drain(s, k, env).t.minted
    decreases |Queue(s.t, k)|
  {
    if Queue(s.t, k) == [] || Full(s.t, k) {
      assert Served(s.t, k);
    } else {
      var s1 := ServeNext(s, k, env);
      ServeKeepsDrawn(s, k, env);
      forall x | x != k ensures Served(s1.t, x) { ServeKeepsServed(s, k, env, x); }
      DrainServes(s1, k, env);
    }
  }
}

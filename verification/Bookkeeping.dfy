/** The broker's books agree: the deadline index with the holders, and uuids with one place. */
module Bookkeeping {
  import opened BrokerTypes
  import opened BrokerSpec
  import opened Attempts
  import opened BrokerSteps
  import opened Drains

  /** Holder `u` of `k` has the deadline row its expiry calls for; a dying one has none. */
  ghost predicate RowAgrees(t: Table, k: Key, u: Uuid, dying: set<Uuid>)
    requires u in Holders(t, k)
  {
    var x := Holders(t, k)[u].expiresAt;
    if x.Infinity? || u in dying then u !in t.deadlines else u in t.deadlines && t.deadlines[u] == Row(k, x.n)
  }

  /** The index is exactly the set of live holders with a finite expiry, but for the `dying`
      holders of a closing socket, whose rows go before they do. */
  ghost predicate IndexAgrees(t: Table, dying: set<Uuid>) {
    && (forall k, u :: u in Holders(t, k) ==> RowAgrees(t, k, u, dying))
    && (forall u :: u in t.deadlines ==> u in Holders(t, t.deadlines[u].key))
  }

  ghost predicate Held(t: Table, u: Uuid) {
    exists k :: u in Holders(t, k)
  }

  ghost predicate AllHeld(t: Table, us: set<Uuid>) {
    forall u :: u in us ==> Held(t, u)
  }

  /** No uuid holds two keys. */
  ghost predicate OneHold(t: Table) {
    forall k, x, u :: u in Holders(t, k) && u in Holders(t, x) ==> k == x
  }

  /** No queue has two waiters of one uuid. */
  ghost predicate QueuesDistinct(t: Table) {
    forall k, i, j :: 0 <= i < j < |Queue(t, k)| ==> Queue(t, k)[i].uuid != Queue(t, k)[j].uuid
  }

  ghost predicate Waits(t: Table, k: Key, w: Waiter) {
    w in Queue(t, k)
  }

  /** A single-key waiter holds nothing yet, and waits in one queue only. */
  ghost predicate WaitersFresh(t: Table) {
    && (forall k, x, w :: Waits(t, k, w) && w.composite.None? ==> w.uuid !in Holders(t, x))
    && (forall k, x, w, v ::
         Waits(t, k, w) && Waits(t, x, v) && w.composite.None? && v.composite.None? && w.uuid == v.uuid ==> k == x)
  }

  ghost predicate Books(t: Table, dying: set<Uuid>) {
    Drawn(t) && IndexAgrees(t, dying) && AllHeld(t, dying) && OneHold(t) && QueuesDistinct(t) && WaitersFresh(t)
  }

  // ----- What serving adds, and that it takes nothing away -----

  /** Holder `h`, under uuid `u` of `k`, is what waiter `w` of `y` becomes when granted. */
  ghost predicate Shape(k: Key, u: Uuid, h: Holder, y: Key, w: Waiter, env: Env) {
    && h.ws == w.ws && h.expiresAt == Deadline(env, u, w.ttl)
    && if w.composite.None? then y == k && w.uuid == u && h.composite.None?
       else u.Minted? && h.composite == Some(w.composite.value.lockUuid)
  }

  ghost predicate Becomes(t: Table, k: Key, u: Uuid, h: Holder, y: Key, w: Waiter, env: Env) {
    Waits(t, y, w) && Shape(k, u, h, y, w, env)
  }

  ghost predicate Invited(t: Table, k: Key, u: Uuid, h: Holder, env: Env) {
    exists y, w :: Becomes(t, k, u, h, y, w, env)
  }

  ghost predicate SameHolder(t: Table, t': Table, k: Key, u: Uuid)
    requires u in Holders(t, k)
  {
    u in Holders(t', k) && Holders(t', k)[u] == Holders(t, k)[u]
  }

  ghost predicate Newcomer(t: Table, t': Table, k: Key, u: Uuid, env: Env)
    requires u in Holders(t', k)
  {
    (u.Minted? ==> t.minted <= u.n < t'.minted) && Invited(t, k, u, Holders(t', k)[u], env)
  }

  ghost predicate Precedes(q: seq<Waiter>, w: Waiter, v: Waiter) {
    exists i, j :: 0 <= i < j < |q| && q[i] == w && q[j] == v
  }

  /** Single-key waiters `w` and `v` stand in the queue of `k`, `w` ahead. */
  ghost predicate InLine(t: Table, k: Key, w: Waiter, v: Waiter) {
    w.composite.None? && v.composite.None? && Precedes(Queue(t, k), w, v)
  }

  /** Single-key waiters that stay keep their order; and one that gets its key leaves nobody
      behind who stood ahead of it. */
  ghost predicate Ordered(t: Table, t': Table) {
    && (forall k, w, v :: InLine(t, k, w, v) && Waits(t', k, w) && Waits(t', k, v) ==> InLine(t', k, w, v))
    && (forall k, w, v :: InLine(t, k, w, v) && v.uuid !in Holders(t, k) && v.uuid in Holders(t', k) ==>
         !Waits(t', k, w))
  }

  /** From `t` to `t'` the holders in `gone` leave and do not come back, and every other holder
      stays as it is; a new holder was a waiter, and a composite's has a new uuid; and every
      waiter was waiting before, a single-key one for the same key. */
  ghost predicate Trades(t: Table, t': Table, gone: iset<(Key, Uuid)>, env: Env) {
    && t.minted <= t'.minted
    && (forall k, u :: u in Holders(t, k) ==> if (k, u) in gone then u !in Holders(t', k) else SameHolder(t, t', k, u))
    && (forall k, u :: u in Holders(t', k) && u !in Holders(t, k) ==> Newcomer(t, t', k, u, env))
    && (forall k, w :: Waits(t', k, w) ==> Waits(t, k, w) || (w.composite.Some? && exists x :: Waits(t, x, w)))
    && Ordered(t, t')
  }

  /** Nobody leaves. */
  ghost predicate Extends(t: Table, t': Table, env: Env) {
    t.locks.Keys <= t'.locks.Keys && Trades(t, t', iset{}, env)
  }

  lemma InvitedBefore(t: Table, t1: Table, gone: iset<(Key, Uuid)>, k: Key, u: Uuid, h: Holder, env: Env)
    requires Trades(t, t1, gone, env) && Invited(t1, k, u, h, env)
    ensures Invited(t, k, u, h, env)
  {
    var y, w :| Becomes(t1, k, u, h, y, w, env);
    if Waits(t, y, w) {
      assert Becomes(t, k, u, h, y, w, env);
    } else {
      var x :| Waits(t, x, w);
      assert Becomes(t, k, u, h, x, w, env);
    }
  }

  lemma InvitedFresh(t: Table, k: Key, u: Uuid, h: Holder, env: Env)
    requires WaitersFresh(t) && Invited(t, k, u, h, env)
    ensures u.Minted? || u !in Holders(t, k)
  {
    var y, w :| Becomes(t, k, u, h, y, w, env);
    assert Waits(t, y, w);
  }

  lemma TradesTransitive(t: Table, t1: Table, t2: Table, gone1: iset<(Key, Uuid)>, gone2: iset<(Key, Uuid)>, env: Env)
    requires Drawn(t) && QueuesDistinct(t) && WaitersFresh(t)
    requires Trades(t, t1, gone1, env) && Trades(t1, t2, gone2, env)
    ensures Trades(t, t2, gone1 + gone2, env)
  {
    forall k, u | u in Holders(t, k)
      ensures if (k, u) in gone1 + gone2 then u !in Holders(t2, k) else SameHolder(t, t2, k, u)
    {
      if (k, u) in gone1 {
        if u in Holders(t2, k) {
          assert u !in Holders(t1, k) && Newcomer(t1, t2, k, u, env);
          InvitedBefore(t, t1, gone1, k, u, Holders(t2, k)[u], env);
          InvitedFresh(t, k, u, Holders(t2, k)[u], env);
        }
      } else {
        assert SameHolder(t, t1, k, u);
        assert (k, u) !in gone2 ==> SameHolder(t1, t2, k, u);
      }
    }
    forall k, u | u in Holders(t2, k) && u !in Holders(t, k)
      ensures Newcomer(t, t2, k, u, env)
    {
      if u in Holders(t1, k) {
        assert (k, u) !in gone2 && SameHolder(t1, t2, k, u) && Newcomer(t, t1, k, u, env);
      } else {
        assert Newcomer(t1, t2, k, u, env);
        InvitedBefore(t, t1, gone1, k, u, Holders(t2, k)[u], env);
      }
    }
    TradesWaits(t, t1, t2, gone1, gone2, env);
    TradesOrdered(t, t1, t2, gone1, gone2, env);
  }

  lemma TradesOrdered(t: Table, t1: Table, t2: Table, gone1: iset<(Key, Uuid)>, gone2: iset<(Key, Uuid)>, env: Env)
    requires QueuesDistinct(t) && Trades(t, t1, gone1, env) && Trades(t1, t2, gone2, env)
    ensures Ordered(t, t2)
  {
    forall k, w, v | InLine(t, k, w, v) && Waits(t2, k, w) && Waits(t2, k, v) ensures InLine(t2, k, w, v) {
      assert Waits(t1, k, w) && Waits(t1, k, v);
    }
    forall k, w, v | InLine(t, k, w, v) && v.uuid !in Holders(t, k) && v.uuid in Holders(t2, k)
      ensures !Waits(t2, k, w)
    {
      assert Waits(t2, k, w) ==> Waits(t1, k, w);
      if v.uuid !in Holders(t1, k) {
        assert Newcomer(t1, t2, k, v.uuid, env);
        InvitedWaits(t1, k, v.uuid, Holders(t2, k)[v.uuid], env);
        var x :| Waits(t1, k, x) && x.composite.None? && x.uuid == v.uuid;
        SameWaiter(t, k, x, v);
      }
    }
  }

  lemma InvitedWaits(t: Table, k: Key, u: Uuid, h: Holder, env: Env)
    requires u.Client? && Invited(t, k, u, h, env)
    ensures exists x :: Waits(t, k, x) && x.composite.None? && x.uuid == u
  {
    var y, x :| Becomes(t, k, u, h, y, x, env);
    assert Waits(t, k, x);
  }

  lemma SameWaiter(t: Table, k: Key, x: Waiter, v: Waiter)
    requires QueuesDistinct(t) && Waits(t, k, x) && Waits(t, k, v) && x.uuid == v.uuid
    ensures x == v
  {
    var i :| 0 <= i < |Queue(t, k)| && Queue(t, k)[i] == x;
    var j :| 0 <= j < |Queue(t, k)| && Queue(t, k)[j] == v;
  }

  lemma TradesWaits(t: Table, t1: Table, t2: Table, gone1: iset<(Key, Uuid)>, gone2: iset<(Key, Uuid)>, env: Env)
    requires Trades(t, t1, gone1, env) && Trades(t1, t2, gone2, env)
    ensures forall k, w :: Waits(t2, k, w) ==> Waits(t, k, w) || (w.composite.Some? && exists x :: Waits(t, x, w))
  {
    forall k, w | Waits(t2, k, w) ensures Waits(t, k, w) || (w.composite.Some? && exists x :: Waits(t, x, w)) {
      if !Waits(t1, k, w) { var x :| Waits(t1, x, w); }
    }
  }

  lemma ExtendsTransitive(t: Table, t1: Table, t2: Table, env: Env)
    requires Drawn(t) && QueuesDistinct(t) && WaitersFresh(t) && Extends(t, t1, env) && Extends(t1, t2, env)
    ensures Extends(t, t2, env)
  {
    TradesTransitive(t, t1, t2, iset{}, iset{}, env);
    var none: iset<(Key, Uuid)> := iset{};
    assert none + none == none;
  }

  // ----- Changes that show in no book -----

  /** The same holders and rows; no more waiters, and each queue still without repetition. */
  ghost predicate FewerWaiters(t: Table, t': Table) {
    && t.minted <= t'.minted && t'.deadlines == t.deadlines
    && (forall k :: Holders(t', k) == Holders(t, k))
    && (forall k, w :: Waits(t', k, w) ==> Waits(t, k, w))
    && QueuesDistinct(t')
  }

  lemma FewerWaitersBooks(t: Table, t': Table, dying: set<Uuid>)
    requires Books(t, dying) && FewerWaiters(t, t')
    ensures Books(t', dying)
  {
    forall k, u | u in Holders(t', k) ensures RowAgrees(t', k, u, dying) { assert RowAgrees(t, k, u, dying); }
    forall u | u in dying
      ensures Held(t', u)
    {
      assert Held(t, u);
      var k :| u in Holders(t, k);
      assert u in Holders(t', k);
    }
  }

  // ----- A waiter added -----

  /** `uuid` holds nothing, and waits alone for no other key than `k`. */
  ghost predicate FreshFor(t: Table, k: Key, uuid: Uuid) {
    && (forall x :: uuid !in Holders(t, x))
    && (forall x, w :: Waits(t, x, w) && w.composite.None? && w.uuid == uuid ==> x == k)
  }

  /** Waiter `w` joins the queue of `k`, where it may replace an entry of the same uuid. */
  ghost predicate Joins(t: Table, t': Table, k: Key, w: Waiter) {
    && t'.minted == t.minted && t'.deadlines == t.deadlines
    && (forall x :: Holders(t', x) == Holders(t, x) && (x != k ==> Queue(t', x) == Queue(t, x)))
    && (forall v :: Waits(t', k, v) ==> Waits(t, k, v) || v == w)
    && (forall i, j :: 0 <= i < j < |Queue(t', k)| ==> Queue(t', k)[i].uuid != Queue(t', k)[j].uuid)
  }

  lemma JoinBooks(t: Table, t': Table, k: Key, w: Waiter, dying: set<Uuid>)
    requires Books(t, dying) && Joins(t, t', k, w)
    requires w.composite.None? ==> FreshFor(t, k, w.uuid)
    ensures Books(t', dying)
  {
    assert forall x, v :: Waits(t', x, v) ==> Waits(t, x, v) || (x == k && v == w);
    forall x, u | u in Holders(t', x) ensures RowAgrees(t', x, u, dying) { assert RowAgrees(t, x, u, dying); }
    forall u | u in dying
      ensures Held(t', u)
    {
      assert Held(t, u);
      var x :| u in Holders(t, x);
      assert u in Holders(t', x);
    }
    forall x, y, v, v' | Waits(t', x, v) && Waits(t', y, v') && v.composite.None? && v'.composite.None?
      && v.uuid == v'.uuid
      ensures x == y
    {
      assert Waits(t, x, v) || (x == k && v == w);
      assert Waits(t, y, v') || (y == k && v' == w);
    }
  }

  // ----- A single-key grant -----

  /** `uuid` neither holds nor waits, as a single-key waiter, for anything. */
  ghost predicate Loose(t: Table, uuid: Uuid) {
    && (forall x :: uuid !in Holders(t, x))
    && (forall x, w :: Waits(t, x, w) && w.composite.None? ==> w.uuid != uuid)
  }

  lemma GrantAtKey(t: Table, k: Key, u: Uuid, ws: Ws, ttl: Millis, env: Env, x: Key)
    requires k in t.locks
    ensures var t' := Grant(t, k, u, ws, ttl, None, env);
      && t'.minted == t.minted && t'.locks.Keys == t.locks.Keys
      && Queue(t', x) == Queue(t, x) && MaxOf(t', x) == MaxOf(t, x)
      && Holders(t', x) == (if x == k then Holders(t, k)[u := Holder(ws, TokenOf(t', k), None, Deadline(env, u, ttl))]
                            else Holders(t, x))
      && t'.deadlines == (if ttl.Infinity? then t.deadlines else t.deadlines[u := Row(k, env.clock(u) + ttl.n)])
  {}

  lemma GrantIndex(t: Table, k: Key, u: ClientUuid, ws: Ws, ttl: Millis, env: Env, dying: set<Uuid>)
    requires k in t.locks && Loose(t, u) && IndexAgrees(t, dying) && AllHeld(t, dying) && OneHold(t)
    ensures var t' := Grant(t, k, u, ws, ttl, None, env);
      IndexAgrees(t', dying) && AllHeld(t', dying) && OneHold(t')
  {
    var t' := Grant(t, k, u, ws, ttl, None, env);
    GrantAtKey(t, k, u, ws, ttl, env, k);
    assert u !in dying by { assert !Held(t, u); }
    assert u in t.deadlines ==> u in Holders(t, t.deadlines[u].key);
    forall x, v | v in Holders(t', x) ensures RowAgrees(t', x, v, dying) {
      GrantAtKey(t, k, u, ws, ttl, env, x);
      if v != u { assert RowAgrees(t, x, v, dying); }
    }
    forall v | v in t'.deadlines ensures v in Holders(t', t'.deadlines[v].key) {
      if v != u { GrantAtKey(t, k, u, ws, ttl, env, t.deadlines[v].key); }
    }
    forall x, y, v | v in Holders(t', x) && v in Holders(t', y) ensures x == y {
      GrantAtKey(t, k, u, ws, ttl, env, x);
      GrantAtKey(t, k, u, ws, ttl, env, y);
    }
    forall v | v in dying ensures Held(t', v) {
      assert Held(t, v);
      var x :| v in Holders(t, x);
      GrantAtKey(t, k, u, ws, ttl, env, x);
      assert v in Holders(t', x);
    }
  }

  lemma GrantBooks(t: Table, k: Key, u: ClientUuid, ws: Ws, ttl: Millis, env: Env, dying: set<Uuid>)
    requires k in t.locks && Loose(t, u) && Books(t, dying)
    ensures Books(Grant(t, k, u, ws, ttl, None, env), dying)
  {
    var t' := Grant(t, k, u, ws, ttl, None, env);
    GrantIndex(t, k, u, ws, ttl, env, dying);
    forall x ensures Queue(t', x) == Queue(t, x) { GrantAtKey(t, k, u, ws, ttl, env, x); }
    assert forall x, w :: Waits(t', x, w) <==> Waits(t, x, w);
    GrantAtKey(t, k, u, ws, ttl, env, k);
    forall x, v | v in Holders(t', x) && v != u ensures v in Holders(t, x) { GrantAtKey(t, k, u, ws, ttl, env, x); }
  }

  // ----- A composite granted -----

  /** The walk over a granted waiter's keys, seen at key `x`. */
  lemma CompositeAtKey(t: Table, w: Waiter, env: Env, x: Key)
    requires w.composite.Some? && TryAll(t, w, env).contended.None?
    ensures var (a, ask) := (TryAll(t, w, env), w.composite.value);
      && t.minted <= a.t.minted && (x in t.locks ==> x in a.t.locks)
      && Queue(a.t, x) == Queue(t, x) && MaxOf(a.t, x) == MaxOf(t, x)
      && (x in a.us <==> x in a.toks) && (x in a.us <==> x in ask.allKeys)
      && (x in a.us ==>
            && a.us[x].Minted? && t.minted <= a.us[x].n < a.t.minted && !Full(t, x)
            && Holders(a.t, x) == Holders(t, x)[a.us[x] :=
                 Holder(w.ws, a.toks[x], Some(ask.lockUuid), Deadline(env, a.us[x], w.ttl))])
      && (x !in a.us ==> Holders(a.t, x) == Holders(t, x))
  {
    TryKeysAtKey(t, w.composite.value.allKeys, w.ws, w.ttl, w.composite.value.lockUuid, env, x);
  }

  lemma CompositeDrawn(t: Table, w: Waiter, env: Env)
    requires w.composite.Some? && TryAll(t, w, env).contended.None? && Drawn(t)
    ensures Drawn(TryAll(t, w, env).t) && t.minted <= TryAll(t, w, env).t.minted
  {
    var a, ask := TryAll(t, w, env), w.composite.value;
    TryKeysMints(t, ask.allKeys, w.ws, w.ttl, ask.lockUuid, env);
    forall x, u | u in Holders(a.t, x) && u.Minted? ensures u.n < a.t.minted { CompositeAtKey(t, w, env, x); }
    forall u | u in a.t.deadlines && u.Minted? ensures u.n < a.t.minted {
      TryKeysAtUuid(t, ask.allKeys, w.ws, w.ttl, ask.lockUuid, env, u);
    }
  }

  lemma CompositeRows(t: Table, w: Waiter, env: Env, dying: set<Uuid>)
    requires w.composite.Some? && TryAll(t, w, env).contended.None? && Drawn(t)
    requires IndexAgrees(t, dying) && AllHeld(t, dying)
    ensures forall x, u :: u in Holders(TryAll(t, w, env).t, x) ==> RowAgrees(TryAll(t, w, env).t, x, u, dying)
  {
    var a, ask := TryAll(t, w, env), w.composite.value;
    forall x, u | u in Holders(a.t, x) ensures RowAgrees(a.t, x, u, dying) {
      CompositeAtKey(t, w, env, x);
      TryKeysAtUuid(t, ask.allKeys, w.ws, w.ttl, ask.lockUuid, env, u);
      if u in Holders(t, x) {
        assert RowAgrees(t, x, u, dying);
      } else if w.ttl.Finite? {
        assert u !in dying by { assert !Held(t, u); }
        var y := a.t.deadlines[u].key;
        if y != x { TryKeysDiffer(t, ask.allKeys, w.ws, w.ttl, ask.lockUuid, env, x, y); }
      }
    }
  }

  lemma CompositeIndex(t: Table, w: Waiter, env: Env, dying: set<Uuid>)
    requires w.composite.Some? && TryAll(t, w, env).contended.None? && Drawn(t)
    requires IndexAgrees(t, dying) && AllHeld(t, dying) && OneHold(t)
    ensures var a := TryAll(t, w, env);
      IndexAgrees(a.t, dying) && AllHeld(a.t, dying) && OneHold(a.t)
  {
    var a, ask := TryAll(t, w, env), w.composite.value;
    CompositeRows(t, w, env, dying);
    forall u | u in a.t.deadlines ensures u in Holders(a.t, a.t.deadlines[u].key) {
      TryKeysAtUuid(t, ask.allKeys, w.ws, w.ttl, ask.lockUuid, env, u);
      CompositeAtKey(t, w, env, a.t.deadlines[u].key);
    }
    forall x, y, u | u in Holders(a.t, x) && u in Holders(a.t, y) ensures x == y {
      CompositeAtKey(t, w, env, x);
      CompositeAtKey(t, w, env, y);
      if x != y { TryKeysDiffer(t, ask.allKeys, w.ws, w.ttl, ask.lockUuid, env, x, y); }
    }
    forall u | u in dying ensures Held(a.t, u) {
      assert Held(t, u);
      var x :| u in Holders(t, x);
      CompositeAtKey(t, w, env, x);
      assert u in Holders(a.t, x);
    }
  }

  lemma CompositeBooks(t: Table, w: Waiter, env: Env, dying: set<Uuid>)
    requires w.composite.Some? && TryAll(t, w, env).contended.None? && Books(t, dying)
    ensures Books(TryAll(t, w, env).t, dying)
  {
    var a := TryAll(t, w, env);
    CompositeDrawn(t, w, env);
    CompositeIndex(t, w, env, dying);
    CompositeWaits(t, w, env);
    assert QueuesDistinct(a.t);
    assert WaitersFresh(a.t);
  }

  lemma CompositeWaits(t: Table, w: Waiter, env: Env)
    requires w.composite.Some? && TryAll(t, w, env).contended.None?
    ensures var a := TryAll(t, w, env);
      && (forall x :: Queue(a.t, x) == Queue(t, x))
      && (forall x, v :: Waits(a.t, x, v) <==> Waits(t, x, v))
      && (forall x, u :: u in Holders(a.t, x) && u.Client? ==> u in Holders(t, x))
  {
    var a := TryAll(t, w, env);
    forall x ensures Queue(a.t, x) == Queue(t, x) { CompositeAtKey(t, w, env, x); }
    forall x, u | u in Holders(a.t, x) && u.Client? ensures u in Holders(t, x) { CompositeAtKey(t, w, env, x); }
  }

  // ----- A composite stopped -----

  lemma StoppedBooks(t: Table, w: Waiter, env: Env, dying: set<Uuid>)
    requires w.composite.Some? && TryAll(t, w, env).contended.Some? && Books(t, dying)
    ensures var a := TryAll(t, w, env);
      && Books(a.t, dying) && FewerWaiters(t, a.t)
      && (forall x :: Queue(a.t, x) == Queue(t, x) && (x in t.locks ==> x in a.t.locks))
  {
    var a := TryAll(t, w, env);
    FailedDeadlines(t, w, env);
    FailedAtKey(t, w, env, a.contended.value);
    forall x
      ensures Holders(a.t, x) == Holders(t, x) && Queue(a.t, x) == Queue(t, x) && (x in t.locks ==> x in a.t.locks)
    {
      FailedAtKey(t, w, env, x);
    }
    assert forall x, v :: Waits(a.t, x, v) <==> Waits(t, x, v);
    FewerWaitersBooks(t, a.t, dying);
  }

  lemma EnqueueJoins(t: Table, k: Key, w: Waiter)
    requires QueuesDistinct(t)
    ensures Joins(t, Enqueue(t, k, w), k, w)
  {}

  // ----- Serving the head of a queue -----

  lemma HeadWaits(s: State, k: Key, env: Env)
    requires Queue(s.t, k) != []
    ensures Waits(s.t, k, Head(s, k, env))
    ensures forall w :: w in Rest(s, k, env) ==> Waits(s.t, k, w)
    ensures QueuesDistinct(s.t) ==> forall w :: w in Rest(s, k, env) ==> w.uuid != Head(s, k, env).uuid
    ensures QueuesDistinct(s.t) ==> forall i, j :: 0 <= i < j < |Rest(s, k, env)| ==>
      Rest(s, k, env)[i].uuid != Rest(s, k, env)[j].uuid
  {
    NextWaiterSplits(Queue(s.t, k), env.live);
  }

  /** Popping keeps the books; a single-key waiter, once popped, is loose. */
  lemma PopBooks(s: State, k: Key, env: Env, dying: set<Uuid>)
    requires Queue(s.t, k) != [] && Books(s.t, dying)
    ensures var t1 := Popped(s, k, env);
      && Books(t1, dying) && FewerWaiters(s.t, t1) && t1.minted == s.t.minted && t1.locks.Keys == s.t.locks.Keys
      && (forall w :: Waits(t1, k, w) ==> w != Head(s, k, env))
      && (Head(s, k, env).composite.None? ==> Loose(t1, Head(s, k, env).uuid))
  {
    var t1, w := Popped(s, k, env), Head(s, k, env);
    HeadWaits(s, k, env);
    forall x
      ensures Holders(t1, x) == Holders(s.t, x) && Queue(t1, x) == if x == k then Rest(s, k, env) else Queue(s.t, x)
    {
      PoppedAtKey(s, k, env, x);
    }
    PoppedAtKey(s, k, env, k);
    FewerWaitersBooks(s.t, t1, dying);
    forall x, v | Waits(t1, x, v) && v.composite.None? && w.composite.None? ensures v.uuid != w.uuid {
      assert Waits(s.t, x, v) && Waits(s.t, k, w);
    }
  }

  lemma ServeKeepsBooks(s: State, k: Key, env: Env, dying: set<Uuid>)
    requires Queue(s.t, k) != [] && !Full(s.t, k) && Books(s.t, dying)
    ensures Books(ServeNext(s, k, env).t, dying)
  {
    var t1, w := Popped(s, k, env), Head(s, k, env);
    PopBooks(s, k, env, dying);
    if w.composite.None? {
      GrantBooks(t1, k, w.uuid, w.ws, w.ttl, env, dying);
    } else if TryAll(t1, w, env).contended.None? {
      CompositeBooks(t1, w, env, dying);
    } else {
      var a := TryAll(t1, w, env);
      StoppedBooks(t1, w, env, dying);
      EnqueueJoins(a.t, a.contended.value, w);
      JoinBooks(a.t, Enqueue(a.t, a.contended.value, w), a.contended.value, w, dying);
    }
  }

  lemma ServeExtends(s: State, k: Key, env: Env, dying: set<Uuid>)
    requires Queue(s.t, k) != [] && !Full(s.t, k) && Books(s.t, dying)
    ensures Extends(s.t, ServeNext(s, k, env).t, env)
  {
    var t', w := ServeNext(s, k, env).t, Head(s, k, env);
    HeadWaits(s, k, env);
    assert s.t.locks.Keys <= t'.locks.Keys && s.t.minted <= t'.minted by { ServeGrows(s, k, env); }
    forall x, u | u in Holders(s.t, x)
      ensures SameHolder(s.t, t', x, u)
    {
      ServeAtKey(s, k, env, x);
      assert Waits(s.t, k, w);
    }
    forall x, u | u in Holders(t', x) && u !in Holders(s.t, x) ensures Newcomer(s.t, t', x, u, env) {
      ServeAtKey(s, k, env, x);
      assert Becomes(s.t, x, u, Holders(t', x)[u], k, w, env);
    }
    forall x, v | Waits(t', x, v)
      ensures Waits(s.t, x, v) || (v == w && w.composite.Some?)
    {
      ServeAtKey(s, k, env, x);
    }
    ServeOrdered(s, k, env, dying);
  }

  /** The head of the queue is served before, or dropped with, whoever stood ahead of it. */
  lemma ServeOrdered(s: State, k: Key, env: Env, dying: set<Uuid>)
    requires Queue(s.t, k) != [] && !Full(s.t, k) && Books(s.t, dying)
    ensures Ordered(s.t, ServeNext(s, k, env).t)
  {
    var t', h := ServeNext(s, k, env).t, Head(s, k, env);
    forall x, w, v | InLine(s.t, x, w, v) && Waits(t', x, w)
      ensures Waits(t', x, v) ==> InLine(t', x, w, v)
      ensures v.uuid !in Holders(s.t, x) ==> v.uuid !in Holders(t', x)
    {
      QueueAfter(s, k, env, x);
      ServeAtKey(s, k, env, x);
      if x == k { RestOrdered(s, k, env, w, v); }
    }
  }

  lemma QueueAfter(s: State, k: Key, env: Env, x: Key)
    requires Queue(s.t, k) != [] && !Full(s.t, k) && Drawn(s.t)
    ensures var q := Queue(ServeNext(s, k, env).t, x);
      if x == k then q == Rest(s, k, env)
      else q == Queue(s.t, x) || (Head(s, k, env).composite.Some? && q == Queue(s.t, x) + [Head(s, k, env)])
  {
    if Head(s, k, env).composite.None? {
      ServeSingle(s, k, env, x);
    } else if TryAll(Popped(s, k, env), Head(s, k, env), env).contended.None? {
      ServeGranted(s, k, env, x);
    } else {
      ServeStopped(s, k, env, x);
    }
  }

  /** Whoever is left stood behind the head, in the same order. */
  lemma RestOrdered(s: State, k: Key, env: Env, w: Waiter, v: Waiter)
    requires Queue(s.t, k) != [] && QueuesDistinct(s.t) && InLine(s.t, k, w, v) && w in Rest(s, k, env)
    ensures v.uuid != Head(s, k, env).uuid
    ensures Precedes(Rest(s, k, env), w, v)
  {
    var q := Queue(s.t, k);
    NextWaiterSplits(q, env.live);
    SuffixOrdered(q, |q| - |Rest(s, k, env)|, w, v);
  }

  lemma SuffixOrdered(q: seq<Waiter>, m: nat, w: Waiter, v: Waiter)
    requires forall i, j :: 0 <= i < j < |q| ==> q[i].uuid != q[j].uuid
    requires Precedes(q, w, v)
    requires 0 < m <= |q| && w in q[m..]
    ensures v.uuid != q[m - 1].uuid
    ensures Precedes(q[m..], w, v)
  {
    var i, j :| 0 <= i < j < |q| && q[i] == w && q[j] == v;
    var i' :| 0 <= i' < |q[m..]| && q[m..][i'] == w;
    assert q[i' + m] == w;
    assert q[m..][j - m] == v;
  }

  lemma ServeGrows(s: State, k: Key, env: Env)
    requires Queue(s.t, k) != [] && !Full(s.t, k) && Drawn(s.t)
    ensures s.t.locks.Keys <= ServeNext(s, k, env).t.locks.Keys && s.t.minted <= ServeNext(s, k, env).t.minted
  {
    ServeAtKey(s, k, env, k);
    forall x | x in s.t.locks ensures x in ServeNext(s, k, env).t.locks { ServeAtKey(s, k, env, x); }
  }

  /** At key `x`: the queue loses its head or gains the stopped composite; at most one holder is
      added, the one the head of the queue becomes. */
  lemma ServeAtKey(s: State, k: Key, env: Env, x: Key)
    requires Queue(s.t, k) != [] && !Full(s.t, k) && Drawn(s.t)
    ensures var (t', w) := (ServeNext(s, k, env).t, Head(s, k, env));
      && s.t.minted <= t'.minted && (x in s.t.locks ==> x in t'.locks)
      && (forall v :: v in Queue(t', x) ==> v in Queue(s.t, x) || (v == w && w.composite.Some?))
      && (forall u :: u in Holders(s.t, x) ==>
            u in Holders(t', x) && (u != w.uuid || w.composite.Some? ==> Holders(t', x)[u] == Holders(s.t, x)[u]))
      && (forall u :: u in Holders(t', x) && u !in Holders(s.t, x) ==>
            Shape(x, u, Holders(t', x)[u], k, w, env) && (u.Minted? ==> s.t.minted <= u.n < t'.minted))
  {
    var t1, w := Popped(s, k, env), Head(s, k, env);
    HeadWaits(s, k, env);
    if w.composite.None? {
      ServeSingle(s, k, env, x);
    } else if TryAll(t1, w, env).contended.None? {
      ServeGrantedAtKey(s, k, env, x);
    } else {
      ServeStopped(s, k, env, x);
    }
  }

  lemma ServeGrantedAtKey(s: State, k: Key, env: Env, x: Key)
    requires Queue(s.t, k) != [] && !Full(s.t, k) && Drawn(s.t) && Head(s, k, env).composite.Some?
    requires TryAll(Popped(s, k, env), Head(s, k, env), env).contended.None?
    ensures var (t', w) := (ServeNext(s, k, env).t, Head(s, k, env));
      && s.t.minted <= t'.minted && (x in s.t.locks ==> x in t'.locks)
      && (forall v :: v in Queue(t', x) ==> v in Queue(s.t, x))
      && (forall u :: u in Holders(s.t, x) ==> SameHolder(s.t, t', x, u))
      && (forall u :: u in Holders(t', x) && u !in Holders(s.t, x) ==>
            Shape(x, u, Holders(t', x)[u], k, w, env) && u.Minted? && s.t.minted <= u.n < t'.minted)
  {
    HeadWaits(s, k, env);
    ServeGranted(s, k, env, x);
  }

  lemma {:induction false} DrainKeepsBooks(s: State, k: Key, env: Env, dying: set<Uuid>)
    requires Books(s.t, dying)
    ensures Books(Drain(s, k, env).t, dying) && Extends(s.t, Drain(s, k, env).t, env)
    decreases |Queue(s.t, k)|
  {
    if Queue(s.t, k) != [] && !Full(s.t, k) {
      var s1 := ServeNext(s, k, env);
      ServeKeepsBooks(s, k, env, dying);
      ServeExtends(s, k, env, dying);
      DrainKeepsBooks(s1, k, env, dying);
      ExtendsTransitive(s.t, s1.t, Drain(s1, k, env).t, env);
    }
  }
}

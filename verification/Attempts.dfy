/** What one multi-key attempt does to the table, granted or rolled back. */
module Attempts {
  import opened BrokerTypes
  import opened BrokerSpec

  lemma GrantMemberAtKey(t: Table, k: Key, ws: Ws, ttl: Millis, lockUuid: Uuid, env: Env, x: Key)
    ensures var t1 := GrantMember(t, k, ws, ttl, lockUuid, env);
      && t1.minted == t.minted + 1 && k in t1.locks && (x in t.locks ==> x in t1.locks)
      && Queue(t1, x) == Queue(t, x) && MaxOf(t1, x) == MaxOf(t, x)
      && Holders(t1, x) ==
           if x == k then Holders(t, k)[Minted(t.minted) :=
             Holder(ws, TokenOf(t1, k), Some(lockUuid), Deadline(env, Minted(t.minted), ttl))]
           else Holders(t, x)
  {}

  /** At key `x`: the queue and max stand; the holders gain the one the attempt names for `x`. */
  lemma {:induction false} TryKeysAtKey(t: Table, ks: seq<Key>, ws: Ws, ttl: Millis, lockUuid: Uuid, env: Env, x: Key)
    requires Distinct(ks)
    ensures var a := TryKeys(t, ks, ws, ttl, lockUuid, env);
      && t.minted <= a.t.minted && (x in t.locks ==> x in a.t.locks)
      && Queue(a.t, x) == Queue(t, x) && MaxOf(a.t, x) == MaxOf(t, x)
      && (x in a.us <==> x in a.toks)
      && (x in a.us ==>
            && x in ks && !Full(t, x) && a.us[x].Minted? && t.minted <= a.us[x].n < a.t.minted
            && Holders(a.t, x) == Holders(t, x)[a.us[x] :=
                 Holder(ws, a.toks[x], Some(lockUuid), Deadline(env, a.us[x], ttl))])
      && (x !in a.us ==> Holders(a.t, x) == Holders(t, x))
      && (a.contended.None? && x in ks ==> x in a.us)
      && (a.contended == Some(x) ==> x in ks && x !in a.us && Full(t, x) && x in t.locks)
    decreases |ks|
  {
    if ks != [] && !Full(t, ks[0]) {
      var t1 := GrantMember(t, ks[0], ws, ttl, lockUuid, env);
      GrantMemberAtKey(t, ks[0], ws, ttl, lockUuid, env, x);
      TryKeysAtKey(t1, ks[1..], ws, ttl, lockUuid, env, x);
    }
  }

  /** The new holders are pairwise different. */
  lemma {:induction false} TryKeysDiffer(t: Table, ks: seq<Key>, ws: Ws, ttl: Millis, lockUuid: Uuid, env: Env,
                                         x: Key, y: Key)
    requires Distinct(ks) && x != y
    ensures var a := TryKeys(t, ks, ws, ttl, lockUuid, env);
      x in a.us && y in a.us ==> a.us[x] != a.us[y]
    decreases |ks|
  {
    if ks != [] && !Full(t, ks[0]) {
      var t1 := GrantMember(t, ks[0], ws, ttl, lockUuid, env);
      GrantMemberAtKey(t, ks[0], ws, ttl, lockUuid, env, x);
      TryKeysDiffer(t1, ks[1..], ws, ttl, lockUuid, env, x, y);
      TryKeysAtKey(t1, ks[1..], ws, ttl, lockUuid, env, x);
      TryKeysAtKey(t1, ks[1..], ws, ttl, lockUuid, env, y);
    }
  }

  lemma GrantMemberAtUuid(t: Table, k: Key, ws: Ws, ttl: Millis, lockUuid: Uuid, env: Env)
    ensures var t1 := GrantMember(t, k, ws, ttl, lockUuid, env);
      && t1.minted == t.minted + 1
      && t1.deadlines == (if ttl.Infinity? then t.deadlines
                          else t.deadlines[Minted(t.minted) := Row(k, env.clock(Minted(t.minted)) + ttl.n)])
  {}

  /** An older uuid keeps its deadline row; a new one has the row of the key it was granted, when the ttl
      is finite. */
  ghost predicate RowsAt(t: Table, a: Attempt, ttl: Millis, env: Env, u: Uuid) {
    && (u.Client? || u.n < t.minted || a.t.minted <= u.n ==>
          && (u in a.t.deadlines <==> u in t.deadlines)
          && (u in t.deadlines ==> a.t.deadlines[u] == t.deadlines[u]))
    && (u.Minted? && t.minted <= u.n < a.t.minted ==>
          && (u in a.t.deadlines <==> ttl.Finite?)
          && (ttl.Finite? ==>
                var row := a.t.deadlines[u];
                row.key in a.us && a.us[row.key] == u && row == Row(row.key, env.clock(u) + ttl.n)))
  }

  lemma {:induction false} TryKeysAtUuid(t: Table, ks: seq<Key>, ws: Ws, ttl: Millis, lockUuid: Uuid, env: Env, u: Uuid)
    requires Distinct(ks)
    requires u.Minted? && t.minted <= u.n ==> u !in t.deadlines
    ensures var a := TryKeys(t, ks, ws, ttl, lockUuid, env); t.minted <= a.t.minted && RowsAt(t, a, ttl, env, u)
    decreases |ks|
  {
    if ks != [] && !Full(t, ks[0]) {
      var t1 := GrantMember(t, ks[0], ws, ttl, lockUuid, env);
      GrantMemberAtUuid(t, ks[0], ws, ttl, lockUuid, env);
      TryKeysMints(t1, ks[1..], ws, ttl, lockUuid, env);
      if u == Minted(t.minted) {
        TryKeysFirstRow(t, ks, ws, ttl, lockUuid, env);
      } else {
        TryKeysAtUuid(t1, ks[1..], ws, ttl, lockUuid, env, u);
        RestRow(t1, ks, ws, ttl, lockUuid, env, u);
        LaterRow(t, t1, ks[0], TryKeys(t1, ks[1..], ws, ttl, lockUuid, env), TryKeys(t, ks, ws, ttl, lockUuid, env),
          ttl, env, u);
      }
    }
  }

  lemma RestRow(t: Table, ks: seq<Key>, ws: Ws, ttl: Millis, lockUuid: Uuid, env: Env, u: Uuid)
    requires Distinct(ks) && ks != []
    ensures var r := TryKeys(t, ks[1..], ws, ttl, lockUuid, env);
      u in r.t.deadlines && r.t.deadlines[u].key in r.us ==> r.t.deadlines[u].key != ks[0]
  {
    var r := TryKeys(t, ks[1..], ws, ttl, lockUuid, env);
    if u in r.t.deadlines { TryKeysAtKey(t, ks[1..], ws, ttl, lockUuid, env, r.t.deadlines[u].key); }
  }

  lemma LaterRow(t: Table, t1: Table, k: Key, r: Attempt, a: Attempt, ttl: Millis, env: Env, u: Uuid)
    requires u != Minted(t.minted) && t1.minted == t.minted + 1
    requires (u in t1.deadlines <==> u in t.deadlines) && (u in t.deadlines ==> t1.deadlines[u] == t.deadlines[u])
    requires RowsAt(t1, r, ttl, env, u) && a.t == r.t && a.us == r.us[k := Minted(t.minted)]
    requires u in r.t.deadlines && r.t.deadlines[u].key in r.us ==> r.t.deadlines[u].key != k
    ensures RowsAt(t, a, ttl, env, u)
  {}

  /** The first member granted has its row. */
  lemma TryKeysFirstRow(t: Table, ks: seq<Key>, ws: Ws, ttl: Millis, lockUuid: Uuid, env: Env)
    requires ks != [] && !Full(t, ks[0]) && Minted(t.minted) !in t.deadlines
    ensures RowsAt(t, TryKeys(t, ks, ws, ttl, lockUuid, env), ttl, env, Minted(t.minted))
  {
    var t1 := GrantMember(t, ks[0], ws, ttl, lockUuid, env);
    GrantMemberAtUuid(t, ks[0], ws, ttl, lockUuid, env);
    TryKeysMints(t1, ks[1..], ws, ttl, lockUuid, env);
    TryKeysOldRow(t1, ks[1..], ws, ttl, lockUuid, env, Minted(t.minted));
  }

  lemma {:induction false} TryKeysMints(t: Table, ks: seq<Key>, ws: Ws, ttl: Millis, lockUuid: Uuid, env: Env)
    ensures t.minted <= TryKeys(t, ks, ws, ttl, lockUuid, env).t.minted
    decreases |ks|
  {
    if ks != [] && !Full(t, ks[0]) {
      GrantMemberAtUuid(t, ks[0], ws, ttl, lockUuid, env);
      TryKeysMints(GrantMember(t, ks[0], ws, ttl, lockUuid, env), ks[1..], ws, ttl, lockUuid, env);
    }
  }

  lemma {:induction false} TryKeysOldRow(t: Table, ks: seq<Key>, ws: Ws, ttl: Millis, lockUuid: Uuid, env: Env, u: Uuid)
    requires u.Minted? ==> u.n < t.minted
    ensures var a := TryKeys(t, ks, ws, ttl, lockUuid, env);
      && (u in a.t.deadlines <==> u in t.deadlines)
      && (u in t.deadlines ==> a.t.deadlines[u] == t.deadlines[u])
    decreases |ks|
  {
    if ks != [] && !Full(t, ks[0]) {
      GrantMemberAtUuid(t, ks[0], ws, ttl, lockUuid, env);
      TryKeysOldRow(GrantMember(t, ks[0], ws, ttl, lockUuid, env), ks[1..], ws, ttl, lockUuid, env, u);
    }
  }

  lemma {:induction false} RollbackAtKey(t: Table, ks: seq<Key>, us: map<Key, Uuid>, x: Key)
    requires Distinct(ks)
    ensures var b := Rollback(t, ks, us);
      && b.minted == t.minted && (x in b.locks <==> x in t.locks)
      && Queue(b, x) == Queue(t, x) && MaxOf(b, x) == MaxOf(t, x)
      && Holders(b, x) == if x in ks && x in us then Holders(t, x) - {us[x]} else Holders(t, x)
    decreases |ks|
  {
    if ks != [] {
      RollbackAtKey(if ks[0] in us then Drop(t, ks[0], us[ks[0]]) else t, ks[1..], us, x);
    }
  }

  lemma {:induction false} RollbackAtUuid(t: Table, ks: seq<Key>, us: map<Key, Uuid>, u: Uuid)
    ensures var b := Rollback(t, ks, us);
      && (u in b.deadlines <==> u in t.deadlines && !exists x :: x in ks && x in us && us[x] == u)
      && (u in b.deadlines ==> b.deadlines[u] == t.deadlines[u])
    decreases |ks|
  {
    if ks != [] {
      var t1 := if ks[0] in us then Drop(t, ks[0], us[ks[0]]) else t;
      RollbackAtUuid(t1, ks[1..], us, u);
      assert forall x :: x in ks <==> x == ks[0] || x in ks[1..];
    }
  }

  // ----- A failed attempt -----

  /** No holder or deadline row carries a uuid that has not been drawn yet. */
  ghost predicate Drawn(t: Table) {
    && (forall k, u :: u in Holders(t, k) && u.Minted? ==> u.n < t.minted)
    && (forall u :: u in t.deadlines && u.Minted? ==> u.n < t.minted)
  }

  /** A stopped attempt is stopped by a full key of the waiter's, which it does not touch. */
  lemma FailedStop(t: Table, w: Waiter, env: Env)
    requires w.composite.Some? && TryAll(t, w, env).contended.Some?
    ensures var a := TryAll(t, w, env);
      var c := a.contended.value;
      && c in w.composite.value.allKeys && Full(t, c) && c in t.locks && c in a.t.locks
      && Holders(a.t, c) == Holders(t, c) && MaxOf(a.t, c) == MaxOf(t, c)
  {
    var ask := w.composite.value;
    var a := TryKeys(t, ask.allKeys, w.ws, w.ttl, ask.lockUuid, env);
    TryKeysAtKey(t, ask.allKeys, w.ws, w.ttl, ask.lockUuid, env, a.contended.value);
    RollbackAtKey(a.t, ask.allKeys, a.us, a.contended.value);
  }

  /** A stopped attempt leaves every key's holders, queue and max as they were. */
  lemma FailedAtKey(t: Table, w: Waiter, env: Env, x: Key)
    requires w.composite.Some? && Drawn(t) && TryAll(t, w, env).contended.Some?
    ensures var b := TryAll(t, w, env).t;
      && t.minted <= b.minted && (x in t.locks ==> x in b.locks)
      && Holders(b, x) == Holders(t, x) && Queue(b, x) == Queue(t, x) && MaxOf(b, x) == MaxOf(t, x)
  {
    var ask := w.composite.value;
    var a := TryKeys(t, ask.allKeys, w.ws, w.ttl, ask.lockUuid, env);
    TryKeysAtKey(t, ask.allKeys, w.ws, w.ttl, ask.lockUuid, env, x);
    RollbackAtKey(a.t, ask.allKeys, a.us, x);
    if x in a.us {
      AddedThenTaken(Holders(t, x), a.us[x],
        Holder(w.ws, a.toks[x], Some(ask.lockUuid), Deadline(env, a.us[x], w.ttl)));
    }
  }

  lemma AddedThenTaken(h: map<Uuid, Holder>, u: Uuid, v: Holder)
    requires u !in h
    ensures h[u := v] - {u} == h
  {}

  /** ... and the deadline index. */
  lemma FailedDeadlines(t: Table, w: Waiter, env: Env)
    requires w.composite.Some? && Drawn(t) && TryAll(t, w, env).contended.Some?
    ensures TryAll(t, w, env).t.deadlines == t.deadlines
  {
    var ask := w.composite.value;
    var a := TryKeys(t, ask.allKeys, w.ws, w.ttl, ask.lockUuid, env);
    var b := Rollback(a.t, ask.allKeys, a.us);
    forall u
      ensures u in b.deadlines <==> u in t.deadlines
      ensures u in b.deadlines ==> b.deadlines[u] == t.deadlines[u]
    {
      TryKeysAtUuid(t, ask.allKeys, w.ws, w.ttl, ask.lockUuid, env, u);
      RollbackAtUuid(a.t, ask.allKeys, a.us, u);
      forall x | x in a.us ensures x in ask.allKeys && a.us[x].Minted? && a.us[x].n >= t.minted {
        TryKeysAtKey(t, ask.allKeys, w.ws, w.ttl, ask.lockUuid, env, x);
      }
    }
  }
}

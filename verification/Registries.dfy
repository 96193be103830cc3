/** The registry of multi-key grants agrees with the holders and the queues. */
module Registries {
  import opened BrokerTypes
  import opened BrokerSpec
  import opened Attempts
  import opened BrokerSteps
  import opened Drains
  import opened Bookkeeping

  /** Composite `c` records holder `u` for key `k`. */
  ghost predicate Member(s: State, c: Uuid, k: Key, u: Uuid) {
    c in s.composites && k in s.composites[c].holderUuids && s.composites[c].holderUuids[k] == u
  }

  ghost predicate WellFormed(c: Composite, minted: nat) {
    && (forall k :: k in c.holderUuids <==> k in c.keys)
    && (forall k :: k in c.holderUuids ==> c.holderUuids[k].Minted? && c.holderUuids[k].n < minted)
  }

  ghost predicate Registered(s: State) {
    forall c :: c in s.composites ==> c.Minted? && c.n < s.t.minted && WellFormed(s.composites[c], s.t.minted)
  }

  /** A holder is tagged with a composite exactly when the broker drew its uuid, and then it is
      the one that composite records for that key. */
  ghost predicate TagAgrees(s: State, k: Key, u: Uuid)
    requires u in Holders(s.t, k)
  {
    var tag := Holders(s.t, k)[u].composite;
    (u.Minted? <==> tag.Some?) && (tag.Some? ==> Member(s, tag.value, k, u))
  }

  ghost predicate TagsAgree(s: State) {
    forall k, u :: u in Holders(s.t, k) ==> TagAgrees(s, k, u)
  }

  /** A recorded member holds no key but its own, under its composite's tag. */
  ghost predicate MembersAgree(s: State) {
    forall c, k, u, x :: Member(s, c, k, u) && u in Holders(s.t, x) ==>
      x == k && Holders(s.t, x)[u].composite == Some(c)
  }

  /** The live members of one composite belong to one socket. */
  ghost predicate OneOwner(s: State) {
    forall c, k, u, x, v :: Member(s, c, k, u) && Member(s, c, x, v) && u in Holders(s.t, k) && v in Holders(s.t, x) ==>
      Holders(s.t, k)[u].ws == Holders(s.t, x)[v].ws
  }

  ghost predicate SameComposite(w: Waiter, v: Waiter) {
    w.composite.Some? && v.composite.Some? && w.composite.value.lockUuid == v.composite.value.lockUuid
  }

  /** A composite waits in the queue of one of its own keys, has never been granted, and waits
      nowhere else. Together with TagsAgree: it holds nothing. */
  ghost predicate WaitsOnce(s: State) {
    && (forall k, w :: Waits(s.t, k, w) && w.composite.Some? ==>
          var ask := w.composite.value;
          k in ask.allKeys && ask.lockUuid.Minted? && ask.lockUuid.n < s.t.minted && ask.lockUuid !in s.composites)
    && (forall k, x, w, v :: Waits(s.t, k, w) && Waits(s.t, x, v) && SameComposite(w, v) ==> k == x && w == v)
  }

  ghost predicate Registry(s: State) {
    Registered(s) && TagsAgree(s) && MembersAgree(s) && OneOwner(s) && WaitsOnce(s)
  }

  // ----- Fewer waiters; a waiter added -----

  lemma FewerWaitersRegistry(s: State, s': State)
    requires Registry(s) && FewerWaiters(s.t, s'.t) && s'.composites == s.composites
    ensures Registry(s')
  {
    assert forall c, k, u :: Member(s', c, k, u) <==> Member(s, c, k, u);
    forall k, u | u in Holders(s'.t, k) ensures TagAgrees(s', k, u) { assert TagAgrees(s, k, u); }
    forall c | c in s'.composites ensures WellFormed(s'.composites[c], s'.t.minted) {}
  }

  /** `c` was drawn for a composite that neither waits nor was ever granted. */
  ghost predicate Unused(s: State, c: Uuid) {
    && c.Minted? && c.n < s.t.minted && c !in s.composites
    && forall x, v :: Waits(s.t, x, v) && v.composite.Some? ==> v.composite.value.lockUuid != c
  }

  lemma JoinRegistry(s: State, s': State, k: Key, w: Waiter)
    requires Registry(s) && Joins(s.t, s'.t, k, w) && s'.composites == s.composites
    requires w.composite.Some? ==> k in w.composite.value.allKeys && Unused(s, w.composite.value.lockUuid)
    ensures Registry(s')
  {
    assert forall c, x, u :: Member(s', c, x, u) <==> Member(s, c, x, u);
    assert forall x, v :: Waits(s'.t, x, v) ==> Waits(s.t, x, v) || (x == k && v == w);
    forall x, u | u in Holders(s'.t, x) ensures TagAgrees(s', x, u) { assert TagAgrees(s, x, u); }
    forall c | c in s'.composites ensures WellFormed(s'.composites[c], s'.t.minted) {}
  }

  // ----- A single-key grant -----

  lemma GrantRegistry(s: State, k: Key, u: ClientUuid, ws: Ws, ttl: Millis, env: Env, s': State)
    requires k in s.t.locks && Registry(s)
    requires s'.t == Grant(s.t, k, u, ws, ttl, None, env) && s'.composites == s.composites
    ensures Registry(s')
  {
    GrantAtKey(s.t, k, u, ws, ttl, env, k);
    assert forall c, x, v :: Member(s', c, x, v) <==> Member(s, c, x, v);
    forall x
      ensures Queue(s'.t, x) == Queue(s.t, x)
      ensures forall v :: v in Holders(s'.t, x) && v != u ==> SameHolder(s'.t, s.t, x, v)
    {
      GrantAtKey(s.t, k, u, ws, ttl, env, x);
    }
    assert forall x, w :: Waits(s'.t, x, w) <==> Waits(s.t, x, w);
    forall x, v | v in Holders(s'.t, x) ensures TagAgrees(s', x, v) {
      GrantAtKey(s.t, k, u, ws, ttl, env, x);
      if v in Holders(s.t, x) { assert TagAgrees(s, x, v); }
    }
    forall c, x, v | Member(s', c, x, v) ensures Member(s, c, x, v) && v != u {
      assert WellFormed(s.composites[c], s.t.minted);
    }
  }

  // ----- A composite granted -----

  lemma AnnouncedMembers(s: State, w: Waiter, env: Env)
    requires w.composite.Some? && TryAll(s.t, w, env).contended.None?
    requires Registered(s) && Unused(s, w.composite.value.lockUuid)
    ensures var (s', c) := (Announce(s, w, TryAll(s.t, w, env), env), w.composite.value.lockUuid);
      && c in s'.composites && WellFormed(s'.composites[c], s'.t.minted) && s.t.minted <= s'.t.minted
      && (forall d, x, u :: Member(s, d, x, u) ==> Member(s', d, x, u) && u.Minted? && u.n < s.t.minted && d != c)
      && (forall d, x, u :: Member(s', d, x, u) && d != c ==> Member(s, d, x, u))
      && (forall x, u :: Member(s', c, x, u) ==> u.Minted? && s.t.minted <= u.n)
  {
    var s', c := Announce(s, w, TryAll(s.t, w, env), env), w.composite.value.lockUuid;
    TryKeysMints(s.t, w.composite.value.allKeys, w.ws, w.ttl, c, env);
    forall x
      ensures x in s'.composites[c].holderUuids <==> x in s'.composites[c].keys
    {
      CompositeAtKey(s.t, w, env, x);
    }
    forall x | x in s'.composites[c].holderUuids
      ensures var u := s'.composites[c].holderUuids[x]; u.Minted? && s.t.minted <= u.n < s'.t.minted
    { CompositeAtKey(s.t, w, env, x); }
    forall d, x, u | Member(s, d, x, u) ensures Member(s', d, x, u) && u.Minted? && u.n < s.t.minted && d != c {
      assert WellFormed(s.composites[d], s.t.minted);
    }
  }

  /** The members of the new composite hold their own keys, for its socket. */
  lemma NewMemberAt(t: Table, w: Waiter, env: Env, x: Key, y: Key)
    requires w.composite.Some? && TryAll(t, w, env).contended.None? && Drawn(t)
    ensures var a := TryAll(t, w, env);
      x in a.us ==>
        && a.us[x] in Holders(a.t, x)
        && (a.us[x] in Holders(a.t, y) ==>
              && y == x && Holders(a.t, y)[a.us[x]].ws == w.ws
              && Holders(a.t, y)[a.us[x]].composite == Some(w.composite.value.lockUuid))
  {
    CompositeAtKey(t, w, env, x);
    CompositeAtKey(t, w, env, y);
    if y != x { TryKeysDiffer(t, w.composite.value.allKeys, w.ws, w.ttl, w.composite.value.lockUuid, env, x, y); }
  }

  /** Nobody else changed. */
  lemma OldHolderAt(t: Table, w: Waiter, env: Env, u: Uuid, y: Key)
    requires w.composite.Some? && TryAll(t, w, env).contended.None?
    ensures var a := TryAll(t, w, env);
      u.Minted? && u.n < t.minted && u in Holders(a.t, y) ==> SameHolder(a.t, t, y, u)
  {
    CompositeAtKey(t, w, env, y);
  }

  lemma AnnouncedAt(s: State, w: Waiter, env: Env, x: Key, u: Uuid, y: Key)
    requires w.composite.Some? && TryAll(s.t, w, env).contended.None? && Drawn(s.t)
    ensures var (s', c) := (Announce(s, w, TryAll(s.t, w, env), env), w.composite.value.lockUuid);
      && (u.Minted? && u.n < s.t.minted && u in Holders(s'.t, y) ==> SameHolder(s'.t, s.t, y, u))
      && (Member(s', c, x, u) ==> u in Holders(s'.t, x))
      && (Member(s', c, x, u) && u in Holders(s'.t, y) ==>
            y == x && Holders(s'.t, y)[u].composite == Some(c) && Holders(s'.t, y)[u].ws == w.ws)
  {
    NewMemberAt(s.t, w, env, x, y);
    OldHolderAt(s.t, w, env, u, y);
  }

  lemma AnnouncedTags(s: State, w: Waiter, env: Env)
    requires w.composite.Some? && TryAll(s.t, w, env).contended.None? && Unused(s, w.composite.value.lockUuid)
    requires Registered(s) && TagsAgree(s)
    ensures TagsAgree(Announce(s, w, TryAll(s.t, w, env), env))
  {
    var s' := Announce(s, w, TryAll(s.t, w, env), env);
    AnnouncedMembers(s, w, env);
    forall x, u | u in Holders(s'.t, x) ensures TagAgrees(s', x, u) {
      HolderAfter(s.t, w, env, x, u);
      if u in Holders(s.t, x) { assert TagAgrees(s, x, u); }
    }
  }

  lemma HolderAfter(t: Table, w: Waiter, env: Env, x: Key, u: Uuid)
    requires w.composite.Some? && TryAll(t, w, env).contended.None? && u in Holders(TryAll(t, w, env).t, x)
    ensures var a := TryAll(t, w, env);
      if x in a.us && u == a.us[x] then u.Minted? && Holders(a.t, x)[u].composite == Some(w.composite.value.lockUuid)
      else SameHolder(a.t, t, x, u)
  {
    CompositeAtKey(t, w, env, x);
  }

  lemma AnnouncedOwners(s: State, w: Waiter, env: Env)
    requires w.composite.Some? && TryAll(s.t, w, env).contended.None? && Unused(s, w.composite.value.lockUuid)
    requires Drawn(s.t) && Registered(s) && MembersAgree(s) && OneOwner(s)
    ensures MembersAgree(Announce(s, w, TryAll(s.t, w, env), env)) && OneOwner(Announce(s, w, TryAll(s.t, w, env), env))
  {
    var s' := Announce(s, w, TryAll(s.t, w, env), env);
    AnnouncedMembers(s, w, env);
    forall d, x, u, y | Member(s', d, x, u) && u in Holders(s'.t, y)
      ensures y == x && Holders(s'.t, y)[u].composite == Some(d)
    {
      AnnouncedAt(s, w, env, x, u, y);
    }
    forall d, x, u, y, v | Member(s', d, x, u) && Member(s', d, y, v) && u in Holders(s'.t, x) && v in Holders(s'.t, y)
      ensures Holders(s'.t, x)[u].ws == Holders(s'.t, y)[v].ws
    {
      AnnouncedAt(s, w, env, x, u, x);
      AnnouncedAt(s, w, env, y, v, y);
    }
  }

  lemma AnnouncedRegistry(s: State, w: Waiter, env: Env)
    requires w.composite.Some? && TryAll(s.t, w, env).contended.None? && Unused(s, w.composite.value.lockUuid)
    requires Drawn(s.t) && Registry(s)
    ensures Registry(Announce(s, w, TryAll(s.t, w, env), env))
  {
    var s' := Announce(s, w, TryAll(s.t, w, env), env);
    AnnouncedTags(s, w, env);
    AnnouncedOwners(s, w, env);
    AnnouncedMembers(s, w, env);
    forall x ensures Queue(s'.t, x) == Queue(s.t, x) { CompositeAtKey(s.t, w, env, x); }
    assert forall x, v :: Waits(s'.t, x, v) <==> Waits(s.t, x, v);
    forall d | d in s'.composites ensures d.Minted? && d.n < s'.t.minted && WellFormed(s'.composites[d], s'.t.minted) {
      if d in s.composites { assert WellFormed(s.composites[d], s.t.minted); }
    }
  }

  // ----- Serving the head of a queue -----

  /** A composite, once popped, waits nowhere. */
  lemma PopUnused(s: State, k: Key, env: Env, dying: set<Uuid>)
    requires Queue(s.t, k) != [] && Head(s, k, env).composite.Some? && Books(s.t, dying) && WaitsOnce(s)
    ensures Unused(s.(t := Popped(s, k, env)), Head(s, k, env).composite.value.lockUuid)
  {
    var w := Head(s, k, env);
    HeadWaits(s, k, env);
    PopBooks(s, k, env, dying);
    forall x, v | Waits(Popped(s, k, env), x, v) && v.composite.Some?
      ensures v.composite.value.lockUuid != w.composite.value.lockUuid
    {
      assert Waits(s.t, x, v) && Waits(s.t, k, w);
      assert SameComposite(v, w) ==> x == k && v == w;
    }
  }

  lemma ServeKeepsRegistry(s: State, k: Key, env: Env, dying: set<Uuid>)
    requires Queue(s.t, k) != [] && !Full(s.t, k) && Books(s.t, dying) && Registry(s)
    ensures Registry(ServeNext(s, k, env))
  {
    var s1, w := s.(t := Popped(s, k, env)), Head(s, k, env);
    PopBooks(s, k, env, dying);
    FewerWaitersRegistry(s, s1);
    if w.composite.None? {
      GrantRegistry(s1, k, w.uuid, w.ws, w.ttl, env, ServeNext(s, k, env));
    } else {
      PopUnused(s, k, env, dying);
      if TryAll(s1.t, w, env).contended.None? {
        AnnouncedRegistry(s1, w, env);
      } else {
        StoppedRegistry(s1, w, env, dying);
      }
    }
  }

  /** A stopped composite, put in the queue where it was stopped. */
  lemma StoppedRegistry(s: State, w: Waiter, env: Env, dying: set<Uuid>)
    requires w.composite.Some? && TryAll(s.t, w, env).contended.Some? && Unused(s, w.composite.value.lockUuid)
    requires Books(s.t, dying) && Registry(s)
    ensures Registry(RetryMany(s, w, env)) && Registry(s.(t := TryAll(s.t, w, env).t))
  {
    var a := TryAll(s.t, w, env);
    var s1 := s.(t := a.t);
    StoppedBooks(s.t, w, env, dying);
    FewerWaitersRegistry(s, s1);
    FailedStop(s.t, w, env);
    EnqueueJoins(a.t, a.contended.value, w);
    assert forall x, v :: Waits(s1.t, x, v) <==> Waits(s.t, x, v);
    JoinRegistry(s1, RetryMany(s, w, env), a.contended.value, w);
  }

  lemma {:induction false} DrainKeepsRegistry(s: State, k: Key, env: Env, dying: set<Uuid>)
    requires Books(s.t, dying) && Registry(s)
    ensures Registry(Drain(s, k, env))
    decreases |Queue(s.t, k)|
  {
    if Queue(s.t, k) != [] && !Full(s.t, k) {
      ServeKeepsBooks(s, k, env, dying);
      ServeKeepsRegistry(s, k, env, dying);
      DrainKeepsRegistry(ServeNext(s, k, env), k, env, dying);
    }
  }
}

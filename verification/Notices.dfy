/** Whoever is granted is told, once, and nobody else is: through every drain, retries and rollbacks
    included, and so through every step. */
module Notices {
  import opened BrokerTypes
  import opened BrokerSpec
  import opened BrokerSteps
  import opened Drains
  import opened Bookkeeping
  import opened Registries
  import opened Survival
  import opened Releases
  import opened Disconnects

  // ----- What a socket is told -----

  /** `f` tells socket `ws` that its single-key request `u` holds `k`. */
  predicate TellsOne(f: Frame, ws: Ws, k: Key, u: Uuid) {
    f.LockFrame? && f.acquired && f.to == ws && f.key == k && f.uuid == u
  }

  /** `f` tells socket `ws` that composite `c` was granted. */
  predicate TellsMany(f: Frame, ws: Ws, c: Uuid) {
    f.ManyGranted? && f.to == ws && f.lockUuid == c
  }

  predicate IsGrant(f: Frame) {
    f.ManyGranted? || (f.LockFrame? && f.acquired)
  }

  /** Single-key request `u` came to hold `k` from `s` to `s'`. */
  predicate NewHolder(s: State, s': State, k: Key, u: Uuid) {
    u in Holders(s'.t, k) && u !in Holders(s.t, k) && Holders(s'.t, k)[u].composite.None?
  }

  predicate NewComposite(s: State, s': State, c: Uuid) {
    c in s'.composites && c !in s.composites
  }

  /** Frame `i` is the only one, of those sent from `s` to `s'`, that tells `ws` that `u` holds `k`; and it
      says so with `token`. */
  ghost predicate HolderNotice(s: State, s': State, ws: Ws, k: Key, u: Uuid, token: int, i: nat) {
    && |s.out| <= i < |s'.out| && TellsOne(s'.out[i], ws, k, u) && s'.out[i].token == Some(token)
    && forall j :: |s.out| <= j < |s'.out| && TellsOne(s'.out[j], ws, k, u) ==> j == i
  }

  /** Frame `i` is the only one to tell the socket of waiter `w` that its composite was granted; it names the
      request, its keys, the composite, and the tokens that were registered. */
  ghost predicate CompositeNotice(s: State, s': State, w: Waiter, i: nat)
    requires w.composite.Some? && w.composite.value.lockUuid in s'.composites
  {
    var ask := w.composite.value;
    && |s.out| <= i < |s'.out|
    && s'.out[i] == ManyGranted(w.ws, w.uuid, ask.allKeys, ask.lockUuid, s'.composites[ask.lockUuid].tokens)
    && forall j :: |s.out| <= j < |s'.out| && TellsMany(s'.out[j], w.ws, ask.lockUuid) ==> j == i
  }

  /** Every new single-key holder of a socket in `hear` is told so, once, with its own token; and no such
      socket is told so of anybody else. */
  ghost predicate HoldersTold(s: State, s': State, hear: set<Ws>) {
    && (forall k, u :: NewHolder(s, s', k, u) && Holders(s'.t, k)[u].ws in hear ==>
          exists i: nat :: HolderNotice(s, s', Holders(s'.t, k)[u].ws, k, u, Holders(s'.t, k)[u].token, i))
    && (forall i :: |s.out| <= i < |s'.out| && s'.out[i].LockFrame? && s'.out[i].acquired && s'.out[i].to in hear ==>
          var f := s'.out[i]; NewHolder(s, s', f.key, f.uuid) && Holders(s'.t, f.key)[f.uuid].ws == f.to)
  }

  /** Every waiting composite that is granted is told so, once; and no socket in `hear` is told so of a
      composite that was not. */
  ghost predicate CompositesTold(s: State, s': State, hear: set<Ws>) {
    && (forall k, w :: Waits(s.t, k, w) && w.composite.Some? && w.ws in hear ==>
          NewComposite(s, s', w.composite.value.lockUuid) ==> exists i: nat :: CompositeNotice(s, s', w, i))
    && (forall i :: |s.out| <= i < |s'.out| && s'.out[i].ManyGranted? && s'.out[i].to in hear ==>
          NewComposite(s, s', s'.out[i].lockUuid))
  }

  /** The tokens registered for a new composite are those its holders have. */
  ghost predicate TokensHeld(s: State, s': State) {
    forall c, k, u :: NewComposite(s, s', c) && u in Holders(s'.t, k) && Holders(s'.t, k)[u].composite == Some(c) ==>
      k in s'.composites[c].tokens && s'.composites[c].tokens[k] == Holders(s'.t, k)[u].token
  }

  /** A new composite is registered for the keys its waiter asked for. */
  ghost predicate KeysAsked(s: State, s': State) {
    forall k, w :: Waits(s.t, k, w) && w.composite.Some? && NewComposite(s, s', w.composite.value.lockUuid) ==>
      s'.composites[w.composite.value.lockUuid].keys == w.composite.value.allKeys
  }

  ghost predicate Notifies(s: State, s': State, hear: set<Ws>) {
    && s.out <= s'.out && HoldersTold(s, s', hear) && CompositesTold(s, s', hear)
    && TokensHeld(s, s') && KeysAsked(s, s')
  }

  /** A composite granted was waiting. */
  ghost predicate Awaited(s: State, s': State) {
    forall c :: NewComposite(s, s', c) ==>
      exists k, w :: Waits(s.t, k, w) && w.composite.Some? && w.composite.value.lockUuid == c
  }

  /** Nothing but grants was sent. */
  ghost predicate OnlyGrants(s: State, s': State) {
    s.out <= s'.out && forall i :: |s.out| <= i < |s'.out| ==> IsGrant(s'.out[i])
  }

  // ----- One thing after another -----

  /** Whoever goes was there before, or belongs to a socket that does not hear. */
  ghost predicate GoneOld(s: State, s1: State, gone: iset<(Key, Uuid)>, hear: set<Ws>) {
    forall k, u :: (k, u) in gone && u in Holders(s1.t, k) ==> u in Holders(s.t, k) || Holders(s1.t, k)[u].ws !in hear
  }

  /** A uuid granted `k` later did not hold it before. */
  lemma NotHeldBefore(s: State, s1: State, s2: State, gone1: iset<(Key, Uuid)>, gone2: iset<(Key, Uuid)>, env: Env,
                      k: Key, u: Uuid)
    requires WaitersFresh(s.t) && Trades(s.t, s1.t, gone1, env) && Trades(s1.t, s2.t, gone2, env)
    requires NewHolder(s1, s2, k, u)
    ensures u !in Holders(s.t, k)
  {
    assert Newcomer(s1.t, s2.t, k, u, env);
    var y, w :| Becomes(s1.t, k, u, Holders(s2.t, k)[u], y, w, env);
    assert Waits(s1.t, k, w) && Waits(s.t, k, w);
  }

  lemma HoldersToldTwice(s: State, s1: State, s2: State, gone1: iset<(Key, Uuid)>, gone2: iset<(Key, Uuid)>, env: Env,
                         hear: set<Ws>)
    requires WaitersFresh(s.t) && Trades(s.t, s1.t, gone1, env) && Trades(s1.t, s2.t, gone2, env)
    requires s.out <= s1.out <= s2.out && HoldersTold(s, s1, hear) && HoldersTold(s1, s2, hear)
    requires GoneOld(s, s1, gone2, hear)
    ensures HoldersTold(s, s2, hear)
  {
    forall k, u | NewHolder(s, s2, k, u) && Holders(s2.t, k)[u].ws in hear
      ensures exists i: nat :: HolderNotice(s, s2, Holders(s2.t, k)[u].ws, k, u, Holders(s2.t, k)[u].token, i)
    {
      HolderToldTwice(s, s1, s2, gone2, env, hear, k, u);
    }
    forall i | |s.out| <= i < |s2.out| && s2.out[i].LockFrame? && s2.out[i].acquired && s2.out[i].to in hear
      ensures var f := s2.out[i]; NewHolder(s, s2, f.key, f.uuid) && Holders(s2.t, f.key)[f.uuid].ws == f.to
    {
      var f := s2.out[i];
      if i < |s1.out| {
        assert s1.out[i] == f && NewHolder(s, s1, f.key, f.uuid);
        assert (f.key, f.uuid) !in gone2 && SameHolder(s1.t, s2.t, f.key, f.uuid);
      } else {
        NotHeldBefore(s, s1, s2, gone1, gone2, env, f.key, f.uuid);
      }
    }
  }

  lemma HolderToldTwice(s: State, s1: State, s2: State, gone2: iset<(Key, Uuid)>, env: Env, hear: set<Ws>, k: Key,
                        u: Uuid)
    requires s.out <= s1.out <= s2.out && HoldersTold(s, s1, hear) && HoldersTold(s1, s2, hear)
    requires Trades(s1.t, s2.t, gone2, env) && NewHolder(s, s2, k, u) && Holders(s2.t, k)[u].ws in hear
    ensures exists i: nat :: HolderNotice(s, s2, Holders(s2.t, k)[u].ws, k, u, Holders(s2.t, k)[u].token, i)
  {
    var h := Holders(s2.t, k)[u];
    if u in Holders(s1.t, k) {
      assert (k, u) !in gone2 && SameHolder(s1.t, s2.t, k, u) && NewHolder(s, s1, k, u);
      var i: nat :| HolderNotice(s, s1, h.ws, k, u, h.token, i);
      assert HolderNotice(s, s2, h.ws, k, u, h.token, i);
    } else {
      var i: nat :| HolderNotice(s1, s2, h.ws, k, u, h.token, i);
      assert HolderNotice(s, s2, h.ws, k, u, h.token, i);
    }
  }

  lemma CompositesToldTwice(s: State, s1: State, s2: State, gone1: iset<(Key, Uuid)>, env: Env, hear: set<Ws>)
    requires WaitsOnce(s) && Trades(s.t, s1.t, gone1, env) && KeepsRecords(s, s1) && KeepsRecords(s1, s2)
    requires s.out <= s1.out <= s2.out && CompositesTold(s, s1, hear) && CompositesTold(s1, s2, hear)
    requires Awaited(s1, s2)
    ensures CompositesTold(s, s2, hear)
  {
    forall k, w | Waits(s.t, k, w) && w.composite.Some? && w.ws in hear
      && NewComposite(s, s2, w.composite.value.lockUuid)
      ensures exists i: nat :: CompositeNotice(s, s2, w, i)
    {
      var c := w.composite.value.lockUuid;
      if c in s1.composites {
        assert NewComposite(s, s1, c);
        var i: nat :| CompositeNotice(s, s1, w, i);
        assert CompositeNotice(s, s2, w, i);
      } else {
        assert NewComposite(s1, s2, c);
        var x, v :| Waits(s1.t, x, v) && v.composite.Some? && v.composite.value.lockUuid == c;
        StillWaits(s, s1, gone1, env, k, w, x, v);
        var i: nat :| CompositeNotice(s1, s2, w, i);
        assert CompositeNotice(s, s2, w, i);
      }
    }
    forall i | |s.out| <= i < |s2.out| && s2.out[i].ManyGranted? && s2.out[i].to in hear
      ensures NewComposite(s, s2, s2.out[i].lockUuid)
    {
      if i < |s1.out| { assert NewComposite(s, s1, s1.out[i].lockUuid); }
    }
  }

  /** Who waits for a composite is who waited for it. */
  lemma StillWaits(s: State, s1: State, gone1: iset<(Key, Uuid)>, env: Env, k: Key, w: Waiter, x: Key, v: Waiter)
    requires WaitsOnce(s) && Trades(s.t, s1.t, gone1, env)
    requires Waits(s.t, k, w) && Waits(s1.t, x, v) && SameComposite(v, w)
    ensures v == w
  {
    if Waits(s.t, x, v) {
      assert SameComposite(v, w);
    } else {
      var y :| Waits(s.t, y, v);
    }
  }

  lemma TokensHeldTwice(s: State, s1: State, s2: State, gone2: iset<(Key, Uuid)>, env: Env)
    requires Registry(s1) && Trades(s1.t, s2.t, gone2, env) && KeepsRecords(s1, s2)
    requires TokensHeld(s, s1) && TokensHeld(s1, s2)
    ensures TokensHeld(s, s2)
  {
    forall c, k, u | NewComposite(s, s2, c) && u in Holders(s2.t, k) && Holders(s2.t, k)[u].composite == Some(c)
      ensures k in s2.composites[c].tokens && s2.composites[c].tokens[k] == Holders(s2.t, k)[u].token
    {
      if u in Holders(s1.t, k) {
        assert (k, u) !in gone2 && SameHolder(s1.t, s2.t, k, u) && TagAgrees(s1, k, u);
        assert NewComposite(s, s1, c);
      } else {
        assert Newcomer(s1.t, s2.t, k, u, env);
        var y, w :| Becomes(s1.t, k, u, Holders(s2.t, k)[u], y, w, env);
        assert Waits(s1.t, y, w) && NewComposite(s1, s2, c);
      }
    }
  }

  lemma KeysAskedTwice(s: State, s1: State, s2: State, gone1: iset<(Key, Uuid)>, env: Env)
    requires WaitsOnce(s) && Trades(s.t, s1.t, gone1, env) && KeepsRecords(s1, s2)
    requires KeysAsked(s, s1) && KeysAsked(s1, s2) && Awaited(s1, s2)
    ensures KeysAsked(s, s2)
  {
    forall k, w | Waits(s.t, k, w) && w.composite.Some? && NewComposite(s, s2, w.composite.value.lockUuid)
      ensures s2.composites[w.composite.value.lockUuid].keys == w.composite.value.allKeys
    {
      var c := w.composite.value.lockUuid;
      if c in s1.composites {
        assert NewComposite(s, s1, c);
      } else {
        assert NewComposite(s1, s2, c);
        var x, v :| Waits(s1.t, x, v) && v.composite.Some? && v.composite.value.lockUuid == c;
        StillWaits(s, s1, gone1, env, k, w, x, v);
      }
    }
  }

  lemma AwaitedTwice(s: State, s1: State, s2: State, gone1: iset<(Key, Uuid)>, env: Env)
    requires Trades(s.t, s1.t, gone1, env) && Awaited(s, s1) && Awaited(s1, s2)
    ensures Awaited(s, s2)
  {
    forall c | NewComposite(s, s2, c)
      ensures exists k, w :: Waits(s.t, k, w) && w.composite.Some? && w.composite.value.lockUuid == c
    {
      if c !in s1.composites {
        assert NewComposite(s1, s2, c);
        var k, w :| Waits(s1.t, k, w) && w.composite.Some? && w.composite.value.lockUuid == c;
        if !Waits(s.t, k, w) { var x :| Waits(s.t, x, w); }
      } else {
        assert NewComposite(s, s1, c);
      }
    }
  }

  lemma NotifiesTwice(s: State, s1: State, s2: State, dying: set<Uuid>, dying1: set<Uuid>, gone1: iset<(Key, Uuid)>,
                      gone2: iset<(Key, Uuid)>, env: Env, hear: set<Ws>)
    requires Sound(s, dying) && Sound(s1, dying1) && KeepsRecords(s, s1) && KeepsRecords(s1, s2)
    requires Trades(s.t, s1.t, gone1, env) && Trades(s1.t, s2.t, gone2, env) && GoneOld(s, s1, gone2, hear)
    requires Notifies(s, s1, hear) && Notifies(s1, s2, hear) && Awaited(s, s1) && Awaited(s1, s2)
    ensures Notifies(s, s2, hear) && Awaited(s, s2)
  {
    HoldersToldTwice(s, s1, s2, gone1, gone2, env, hear);
    CompositesToldTwice(s, s1, s2, gone1, env, hear);
    TokensHeldTwice(s, s1, s2, gone2, env);
    KeysAskedTwice(s, s1, s2, gone1, env);
    AwaitedTwice(s, s1, s2, gone1, env);
  }

  /** Nobody comes to hold anything, and nobody is told so. */
  lemma NoNews(s: State, s': State, hear: set<Ws>)
    requires s'.composites == s.composites && s.out <= s'.out
    requires forall k, u :: u in Holders(s'.t, k) ==> u in Holders(s.t, k)
    requires forall i :: |s.out| <= i < |s'.out| ==> !IsGrant(s'.out[i])
    ensures Notifies(s, s', hear) && Awaited(s, s')
  {}

  lemma NotifiesFewer(s: State, s': State, hear: set<Ws>, fewer: set<Ws>)
    requires Notifies(s, s', hear) && fewer <= hear
    ensures Notifies(s, s', fewer)
  {}

  // ----- Serving -----

  lemma SingleNotified(s: State, k: Key, env: Env, s': State)
    requires Queue(s.t, k) != [] && !Full(s.t, k) && Head(s, k, env).composite.None? && s' == ServeNext(s, k, env)
    requires Head(s, k, env).uuid !in Holders(s.t, k)
    ensures Notifies(s, s', env.live) && Awaited(s, s') && OnlyGrants(s, s')
  {
    var w := Head(s, k, env);
    SingleSent(s, k, env, s');
    forall x ensures x != k ==> Holders(s'.t, x) == Holders(s.t, x) { ServeSingle(s, k, env, x); }
    ServeSingle(s, k, env, k);
    forall x, u | NewHolder(s, s', x, u) && Holders(s'.t, x)[u].ws in env.live
      ensures exists i: nat :: HolderNotice(s, s', Holders(s'.t, x)[u].ws, x, u, Holders(s'.t, x)[u].token, i)
    {
      assert x == k && u == w.uuid;
      assert HolderNotice(s, s', w.ws, k, w.uuid, TokenOf(s'.t, k), |s.out|);
    }
  }

  lemma SingleSent(s: State, k: Key, env: Env, s': State)
    requires Queue(s.t, k) != [] && !Full(s.t, k) && Head(s, k, env).composite.None? && s' == ServeNext(s, k, env)
    ensures var w := Head(s, k, env);
      if w.ws in env.live
      then s'.out == s.out + [LockFrame(w.ws, w.uuid, k, |Rest(s, k, env)|, true, Some(TokenOf(s'.t, k)))]
      else s'.out == s.out
  {}

  lemma GrantedSent(s: State, k: Key, env: Env, s': State)
    requires Queue(s.t, k) != [] && !Full(s.t, k) && Head(s, k, env).composite.Some? && s' == ServeNext(s, k, env)
    requires TryAll(Popped(s, k, env), Head(s, k, env), env).contended.None?
    ensures var (w, a) := (Head(s, k, env), TryAll(Popped(s, k, env), Head(s, k, env), env));
      var ask := w.composite.value;
      if w.ws in env.live then s'.out == s.out + [ManyGranted(w.ws, w.uuid, ask.allKeys, ask.lockUuid, a.toks)]
      else s'.out == s.out
  {}

  /** Nobody is tagged with a composite that is not registered. */
  lemma Untagged(s: State, c: Uuid)
    requires TagsAgree(s) && c !in s.composites
    ensures forall x, u :: u in Holders(s.t, x) ==> Holders(s.t, x)[u].composite != Some(c)
  {
    forall x, u | u in Holders(s.t, x) ensures Holders(s.t, x)[u].composite != Some(c) { assert TagAgrees(s, x, u); }
  }

  lemma GrantedHolders(s: State, k: Key, env: Env, s': State)
    requires Queue(s.t, k) != [] && !Full(s.t, k) && Head(s, k, env).composite.Some? && s' == ServeNext(s, k, env)
    requires TryAll(Popped(s, k, env), Head(s, k, env), env).contended.None?
    requires TagsAgree(s) && Head(s, k, env).composite.value.lockUuid !in s.composites
    ensures var c := Head(s, k, env).composite.value.lockUuid;
      && c in s'.composites && (forall d :: NewComposite(s, s', d) ==> d == c)
      && (forall x, u :: u in Holders(s'.t, x) && u !in Holders(s.t, x) ==> Holders(s'.t, x)[u].composite == Some(c))
      && s'.composites[c].tokens == TryAll(Popped(s, k, env), Head(s, k, env), env).toks
      && s'.composites[c].keys == Head(s, k, env).composite.value.allKeys
    ensures TokensHeld(s, s')
  {
    var c := Head(s, k, env).composite.value.lockUuid;
    ServeGranted(s, k, env, k);
    Untagged(s, c);
    forall x, u | u in Holders(s'.t, x)
      ensures u !in Holders(s.t, x) ==> Holders(s'.t, x)[u].composite == Some(c)
      ensures Holders(s'.t, x)[u].composite == Some(c) ==>
        x in s'.composites[c].tokens && s'.composites[c].tokens[x] == Holders(s'.t, x)[u].token
    {
      ServeGranted(s, k, env, x);
    }
  }

  lemma GrantedNotified(s: State, k: Key, env: Env, s': State, dying: set<Uuid>)
    requires Queue(s.t, k) != [] && !Full(s.t, k) && Head(s, k, env).composite.Some? && s' == ServeNext(s, k, env)
    requires TryAll(Popped(s, k, env), Head(s, k, env), env).contended.None? && Sound(s, dying)
    ensures Notifies(s, s', env.live) && Awaited(s, s') && OnlyGrants(s, s')
  {
    var w := Head(s, k, env);
    HeadWaits(s, k, env);
    assert Waits(s.t, k, w) && w.composite.value.lockUuid !in s.composites;
    GrantedSent(s, k, env, s');
    GrantedHolders(s, k, env, s');
    forall x, v | Waits(s.t, x, v) && v.composite.Some? && NewComposite(s, s', v.composite.value.lockUuid)
      ensures v == w
    {
      assert SameComposite(v, w);
    }
    assert w.ws in env.live ==> CompositeNotice(s, s', w, |s.out|);
  }

  lemma ServeNotifies(s: State, k: Key, env: Env, dying: set<Uuid>)
    requires Queue(s.t, k) != [] && !Full(s.t, k) && Sound(s, dying)
    ensures var s' := ServeNext(s, k, env);
      Notifies(s, s', env.live) && Awaited(s, s') && OnlyGrants(s, s')
  {
    var s', w := ServeNext(s, k, env), Head(s, k, env);
    HeadWaits(s, k, env);
    if w.composite.None? {
      SingleNotified(s, k, env, s');
    } else if TryAll(Popped(s, k, env), w, env).contended.None? {
      GrantedNotified(s, k, env, s', dying);
    } else {
      ServeStopped(s, k, env, k);
      forall x, u | u in Holders(s'.t, x) ensures u in Holders(s.t, x) { ServeStopped(s, k, env, x); }
      NoNews(s, s', env.live);
    }
  }

  /** Through a whole drain, of single-key and multi-key waiters: each new holder of a live socket is told
      exactly once, with its own token; each composite granted is announced exactly once, to who asked for
      it, with the tokens its holders have; and nothing else is sent. */
  lemma {:induction false} DrainNotifies(s: State, k: Key, env: Env, dying: set<Uuid>)
    requires Sound(s, dying)
    ensures var s' := Drain(s, k, env);
      Notifies(s, s', env.live) && Awaited(s, s') && OnlyGrants(s, s')
    decreases |Queue(s.t, k)|
  {
    if Queue(s.t, k) == [] || Full(s.t, k) {
      NoNews(s, s, env.live);
    } else {
      var s1 := ServeNext(s, k, env);
      var none: iset<(Key, Uuid)> := iset{};
      ServeNotifies(s, k, env, dying);
      ServeKeepsBooks(s, k, env, dying);
      ServeExtends(s, k, env, dying);
      ServeKeepsRegistry(s, k, env, dying);
      ServeKeepsWhole(s, k, env, dying, Recorded(s));
      DrainNotifies(s1, k, env, dying);
      DrainSound(s1, k, env, dying, Recorded(s1));
      NotifiesTwice(s, s1, Drain(s1, k, env), dying, dying, none, none, env, env.live);
    }
  }
}

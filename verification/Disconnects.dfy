/** A closing socket: it loses every hold, its peers lose none, and (if it had queued no
    composite and still answers for all its queued uuids) nothing of it is left anywhere. */
module Disconnects {
  import opened BrokerTypes
  import opened BrokerSpec
  import opened BrokerSteps
  import opened Bookkeeping
  import opened Registries
  import opened Survival
  import opened Releases
  import opened Requests

  ghost function At(k: Key, us: seq<Uuid>): iset<(Key, Uuid)> {
    iset u | u in us :: (k, u)
  }

  /** The socket's holders of the keys not yet seen. */
  ghost function OwnedOutside(t: Table, seen: set<Key>, ws: Ws): iset<(Key, Uuid)> {
    iset k, u | k !in seen && u in Owned(t, k, ws) :: (k, u)
  }

  ghost predicate Queued(t: Table, ws: Ws, c: Uuid) {
    exists k, w :: Waits(t, k, w) && w.ws == ws && w.composite.Some? && w.composite.value.lockUuid == c
  }

  // ----- The holders of one key -----

  /** The uuids are the socket's holders of `k`, members at most of composites in `prior`. */
  ghost predicate OwnOld(t: Table, k: Key, us: seq<Uuid>, ws: Ws, prior: iset<Uuid>) {
    forall u :: u in us ==> u in Owned(t, k, ws) && DueHolder(t, u, k, prior)
  }

  lemma UnlockOne(s: State, k: Key, u: Uuid, ws: Ws, env: Env, dying: set<Uuid>, prior: iset<Uuid>)
    requires Sound(s, dying) && NewWhole(s, prior) && DueHolder(s.t, u, k, prior)
    ensures var s' := Unlock(s, Some(ws), UnlockReq(k, None, Some(u), true), env);
      && Sound(s', dying - {u}) && NewWhole(s', prior) && KeepsRecords(s, s') && ServedFrom(s, s', k)
      && Trades(s.t, s'.t, iset{(k, u)}, env) && s.t.locks.Keys <= s'.t.locks.Keys
  {
    UnlocksOne(s.t, k, u, prior);
    UnlockSound(s, Some(ws), UnlockReq(k, None, Some(u), true), env, dying, prior);
  }

  lemma UnlocksOne(t: Table, k: Key, u: Uuid, prior: iset<Uuid>)
    requires DueHolder(t, u, k, prior)
    ensures var req := UnlockReq(k, None, Some(u), true);
      && Unlocked(t, req) == iset{(k, u)} && UnlocksPrior(t, req, prior) && NamesOwnKey(t, req)
      && forall dying :: DyingNamed(t, req, dying)
  {}

  lemma {:induction false} UnlockOwnedSound(s: State, k: Key, us: seq<Uuid>, ws: Ws, env: Env, dying: set<Uuid>,
                                            prior: iset<Uuid>)
    requires Sound(s, dying) && NewWhole(s, prior) && Distinct(us) && OwnOld(s.t, k, us, ws, prior)
    requires forall u :: u in dying ==> u in us
    ensures var s' := UnlockOwned(s, k, us, ws, env);
      && Sound(s', {}) && NewWhole(s', prior) && KeepsRecords(s, s') && ServedFrom(s, s', k)
      && Trades(s.t, s'.t, At(k, us), env) && s.t.locks.Keys <= s'.t.locks.Keys
    decreases |us|
  {
    if us == [] {
      assert dying == {};
      assert At(k, us) == iset{};
      FewerServed(s, s, k);
    } else {
      var u, rest := us[0], us[1..];
      var s1 := Unlock(s, Some(ws), UnlockReq(k, None, Some(u), true), env);
      assert DueHolder(s.t, u, k, prior);
      UnlockOne(s, k, u, ws, env, dying, prior);
      OwnStill(s.t, s1.t, k, us, ws, env, dying, prior);
      UnlockOwnedSound(s1, k, rest, ws, env, dying - {u}, prior);
      ServedTwice(s, s1, UnlockOwned(s1, k, rest, ws, env), k);
      TradesTransitive(s.t, s1.t, UnlockOwned(s1, k, rest, ws, env).t, iset{(k, u)}, At(k, rest), env);
    }
  }

  lemma OwnStill(t: Table, t1: Table, k: Key, us: seq<Uuid>, ws: Ws, env: Env, dying: set<Uuid>, prior: iset<Uuid>)
    requires us != [] && Distinct(us) && OwnOld(t, k, us, ws, prior) && Trades(t, t1, iset{(k, us[0])}, env)
    requires forall u :: u in dying ==> u in us
    ensures OwnOld(t1, k, us[1..], ws, prior)
    ensures forall u :: u in dying - {us[0]} ==> u in us[1..]
    ensures Distinct(us[1..]) && iset{(k, us[0])} + At(k, us[1..]) == At(k, us)
  {
    assert forall u :: u in us <==> u == us[0] || u in us[1..];
    forall u | u in us[1..] ensures u in Owned(t1, k, ws) && DueHolder(t1, u, k, prior) {
      assert u in us && u != us[0];
      assert SameHolder(t, t1, k, u) && DueHolder(t, u, k, prior);
    }
  }

  // ----- One key scrubbed -----

  lemma ScrubQueueShrinks(t: Table, k: Key, uuids: set<Uuid>, ws: Ws)
    requires k in t.locks && Books(t, {})
    ensures var t1 := ScrubQueue(t, k, uuids, ws);
      && Shrinks(t, t1, k, Owned(t, k, ws), {}, Owned(t, k, ws)) && k in t1.locks
      && (forall x :: Holders(t1, x) == Holders(t, x))
      && (forall w :: Waits(t1, k, w) ==> Waits(t, k, w) && w.uuid !in uuids)
  {
    var t1 := ScrubQueue(t, k, uuids, ws);
    RemoveAllKeeps(Queue(t, k), uuids);
    assert forall x :: Holders(t1, x) == Holders(t, x);
    assert forall x :: Queue(t1, x) == if x == k then RemoveAll(Queue(t, k), uuids) else Queue(t, x);
    forall w | Waits(t1, k, w) ensures Waits(t, k, w) && w.uuid !in uuids {}
    forall w, v | InLine(t, k, w, v) && Waits(t1, k, w) && Waits(t1, k, v) ensures InLine(t1, k, w, v) {
      RemoveAllOrdered(Queue(t, k), uuids, w, v);
    }
    forall u | u in Owned(t, k, ws) ensures Held(t1, u) { assert u in Holders(t1, k); }
  }

  lemma ScrubbedSound(s: State, k: Key, uuids: set<Uuid>, ws: Ws, env: Env)
    requires k in s.t.locks && Sound(s, {})
    ensures var s1 := s.(t := ScrubQueue(s.t, k, uuids, ws));
      && Sound(s1, Owned(s.t, k, ws)) && NewWhole(s1, Recorded(s)) && KeepsRecords(s, s1) && ServedFrom(s, s1, k)
      && Trades(s.t, s1.t, iset{}, env) && forall x :: Holders(s1.t, x) == Holders(s.t, x)
  {
    var s1, mine := s.(t := ScrubQueue(s.t, k, uuids, ws)), Owned(s.t, k, ws);
    ScrubQueueShrinks(s.t, k, uuids, ws);
    ShrinkSound(s, s1, k, mine, {}, mine, Recorded(s));
    ShrinkServed(s, s1, k, mine, {}, mine);
    ShrinkTrades(s.t, s1.t, k, mine, {}, mine, env);
    assert Goers(s.t, s1.t, k) == iset{};
  }

  /** A composite is registered meanwhile only with all its holders. */
  lemma ScrubKeySound(s: State, k: Key, uuids: set<Uuid>, us: seq<Uuid>, ws: Ws, env: Env)
    requires k in s.t.locks && Sound(s, {}) && Lists(us, Owned(s.t, k, ws))
    ensures var s' := ScrubKey(s, k, uuids, us, ws, env);
      && Sound(s', {}) && NewWhole(s', Recorded(s)) && KeepsRecords(s, s') && ServedFrom(s, s', k)
      && Trades(s.t, s'.t, At(k, us), env) && s.t.locks.Keys <= s'.t.locks.Keys
  {
    var s1, s' := s.(t := ScrubQueue(s.t, k, uuids, ws)), ScrubKey(s, k, uuids, us, ws, env);
    ScrubbedSound(s, k, uuids, ws, env);
    OwnRecorded(s, s1, k, us, ws);
    UnlockOwnedSound(s1, k, us, ws, env, Owned(s.t, k, ws), Recorded(s));
    ServedTwice(s, s1, s', k);
    TradesTransitive(s.t, s1.t, s'.t, iset{}, At(k, us), env);
    assert iset{} + At(k, us) == At(k, us);
  }

  lemma OwnRecorded(s: State, s1: State, k: Key, us: seq<Uuid>, ws: Ws)
    requires Registry(s) && Lists(us, Owned(s.t, k, ws)) && forall x :: Holders(s1.t, x) == Holders(s.t, x)
    ensures OwnOld(s1.t, k, us, ws, Recorded(s))
  {
    forall u | u in us ensures u in Owned(s1.t, k, ws) && DueHolder(s1.t, u, k, Recorded(s)) {
      assert u in Owned(s.t, k, ws) && TagAgrees(s, k, u);
    }
  }

  // ----- Every key scrubbed -----

  lemma {:induction false} ScrubKeysSound(s: State, visits: Visits, seen: set<Key>, uuids: set<Uuid>, ws: Ws, env: Env)
    requires Sound(s, {}) && FullVisit(s, visits, seen, uuids, ws, env)
    ensures var s' := ScrubKeys(s, visits, uuids, ws, env);
      && Sound(s', {}) && KeepsRecords(s, s') && Trades(s.t, s'.t, OwnedOutside(s.t, seen, ws), env)
    decreases |visits|
  {
    if visits == [] {
      assert OwnedOutside(s.t, seen, ws) == iset{};
    } else {
      var (k, us) := visits[0];
      var s1 := ScrubKey(s, k, uuids, us, ws, env);
      var s' := ScrubKeys(s1, visits[1..], uuids, ws, env);
      ScrubKeySound(s, k, uuids, us, ws, env);
      ScrubKeysSound(s1, visits[1..], seen + {k}, uuids, ws, env);
      TradesTransitive(s.t, s1.t, s'.t, At(k, us), OwnedOutside(s1.t, seen + {k}, ws), env);
      OwnedSplit(s.t, s1.t, k, us, seen, ws, env);
      TradesMore(s.t, s'.t, At(k, us) + OwnedOutside(s1.t, seen + {k}, ws), OwnedOutside(s.t, seen, ws), env);
    }
  }

  lemma OwnedSplit(t: Table, t1: Table, k: Key, us: seq<Uuid>, seen: set<Key>, ws: Ws, env: Env)
    requires k !in seen && Lists(us, Owned(t, k, ws)) && Trades(t, t1, At(k, us), env)
    ensures forall x, u :: u in Holders(t, x) ==>
      ((x, u) in At(k, us) + OwnedOutside(t1, seen + {k}, ws) <==> (x, u) in OwnedOutside(t, seen, ws))
  {
    forall x, u | u in Holders(t, x)
      ensures (x, u) in At(k, us) + OwnedOutside(t1, seen + {k}, ws) <==> (x, u) in OwnedOutside(t, seen, ws)
    {
      if x == k {
        assert (k, u) in At(k, us) <==> u in Owned(t, k, ws);
      } else {
        assert (x, u) !in At(k, us) && SameHolder(t, t1, x, u);
        assert u in Owned(t1, x, ws) <==> u in Owned(t, x, ws);
      }
    }
  }

  // ----- Composites granted during a close -----

  /** The keys the walk has visited by the time composite `c` is registered. */
  ghost function SeenBy(s: State, visits: Visits, seen: set<Key>, uuids: set<Uuid>, ws: Ws, env: Env, c: Uuid): set<Key>
    decreases |visits|
  {
    if visits == [] then seen
    else
      var (k, us) := visits[0];
      var s1 := if k in s.t.locks then ScrubKey(s, k, uuids, us, ws, env) else s;
      if c in s1.composites then seen + {k} else SeenBy(s1, visits[1..], seen + {k}, uuids, ws, env, c)
  }

  /** Nobody else asks under the uuid of a waiting composite. */
  lemma OneAsker(s: State, c: Uuid, a: Ws, b: Ws)
    requires WaitsOnce(s) && Queued(s.t, a, c) && Queued(s.t, b, c)
    ensures a == b
  {
    var k, w :| Waits(s.t, k, w) && w.ws == a && w.composite.Some? && w.composite.value.lockUuid == c;
    var x, v :| Waits(s.t, x, v) && v.ws == b && v.composite.Some? && v.composite.value.lockUuid == c;
    assert SameComposite(w, v);
  }

  lemma QueuedBefore(t: Table, t': Table, gone: iset<(Key, Uuid)>, ws: Ws, c: Uuid, env: Env)
    requires Trades(t, t', gone, env) && Queued(t', ws, c)
    ensures Queued(t, ws, c)
  {
    var k, w :| Waits(t', k, w) && w.ws == ws && w.composite.Some? && w.composite.value.lockUuid == c;
    if !Waits(t, k, w) { var x :| Waits(t, x, w); }
  }

  /** The holders of a composite registered while `k` is served are its asker's, and one of them holds `k`. */
  lemma NewlyGranted(s: State, s1: State, k: Key, gone: iset<(Key, Uuid)>, env: Env, c: Uuid) returns (o: Ws)
    requires Sound(s, {}) && Sound(s1, {}) && NewWhole(s1, Recorded(s))
    requires ServedFrom(s, s1, k) && Trades(s.t, s1.t, gone, env) && c in s1.composites && c !in s.composites
    ensures Queued(s.t, o, c)
    ensures k in s1.composites[c].holderUuids && Whole(s1, c)
    ensures forall x, u :: Member(s1, c, x, u) ==> u in Holders(s1.t, x) && Holders(s1.t, x)[u].ws == o
  {
    var w :| Waits(s.t, k, w) && AsksAs(w, c, s1.composites[c].keys);
    o := w.ws;
    assert WellFormed(s1.composites[c], s1.t.minted) && k in w.composite.value.allKeys;
    forall x, u | Member(s1, c, x, u) ensures u in Holders(s1.t, x) && Holders(s1.t, x)[u].ws == w.ws {
      assert Whole(s1, c);
      MemberInvited(s, s1, k, w, gone, env, c, x, u);
    }
  }

  lemma MemberInvited(s: State, s1: State, k: Key, w: Waiter, gone: iset<(Key, Uuid)>, env: Env, c: Uuid, x: Key,
                      u: Uuid)
    requires Registry(s) && Registry(s1) && Trades(s.t, s1.t, gone, env) && c !in s.composites
    requires Waits(s.t, k, w) && w.composite.Some? && w.composite.value.lockUuid == c
    requires Member(s1, c, x, u) && u in Holders(s1.t, x)
    ensures Holders(s1.t, x)[u].ws == w.ws
  {
    assert Holders(s1.t, x)[u].composite == Some(c);
    assert Newcomer(s.t, s1.t, x, u, env);
    var y, v :| Becomes(s.t, x, u, Holders(s1.t, x)[u], y, v, env);
    assert Waits(s.t, y, v) && SameComposite(v, w);
  }

  /** What becomes of the members of a composite registered during a close: those of a peer's all stay;
      of the closing socket's own exactly those stay whose keys had been visited, at least one of them. */
  ghost predicate Fate(s: State, s': State, seenBy: set<Key>, ws: Ws, c: Uuid) {
    && (exists o: Ws :: Queued(s.t, o, c))
    && (!Queued(s.t, ws, c) ==> forall x, u :: Member(s', c, x, u) ==> u in Holders(s'.t, x))
    && (Queued(s.t, ws, c) ==>
          && (forall x, u :: Member(s', c, x, u) ==> (u in Holders(s'.t, x) <==> x in seenBy))
          && exists x, u :: Member(s', c, x, u) && x in seenBy)
  }

  lemma GrantedNow(s: State, s1: State, s': State, k: Key, seen: set<Key>, gone: iset<(Key, Uuid)>, ws: Ws, env: Env,
                   c: Uuid)
    requires Sound(s, {}) && Sound(s1, {}) && NewWhole(s1, Recorded(s)) && k in seen
    requires ServedFrom(s, s1, k) && Trades(s.t, s1.t, gone, env) && c in s1.composites && c !in s.composites
    requires KeepsRecords(s1, s') && Trades(s1.t, s'.t, OwnedOutside(s1.t, seen, ws), env)
    ensures Fate(s, s', seen, ws, c)
  {
    var o := NewlyGranted(s, s1, k, gone, env, c);
    if Queued(s.t, ws, c) { OneAsker(s, c, ws, o); }
    assert forall x, u :: Member(s', c, x, u) <==> Member(s1, c, x, u);
    forall x, u | Member(s', c, x, u) ensures u in Holders(s'.t, x) <==> o != ws || x in seen {
      assert (x, u) in OwnedOutside(s1.t, seen, ws) <==> x !in seen && o == ws;
      assert (x, u) !in OwnedOutside(s1.t, seen, ws) ==> SameHolder(s1.t, s'.t, x, u);
    }
    assert Member(s', c, k, s1.composites[c].holderUuids[k]);
  }

  lemma GrantedLater(s: State, s1: State, s': State, seenBy: set<Key>, gone: iset<(Key, Uuid)>, ws: Ws, env: Env,
                     c: Uuid)
    requires Sound(s, {}) && Trades(s.t, s1.t, gone, env) && Fate(s1, s', seenBy, ws, c)
    ensures Fate(s, s', seenBy, ws, c)
  {
    var o: Ws :| Queued(s1.t, o, c);
    QueuedBefore(s.t, s1.t, gone, o, c, env);
    if Queued(s.t, ws, c) { OneAsker(s, c, ws, o); }
    if Queued(s1.t, ws, c) { QueuedBefore(s.t, s1.t, gone, ws, c, env); }
  }

  lemma {:induction false} GrantedInClose(s: State, visits: Visits, seen: set<Key>, uuids: set<Uuid>, ws: Ws,
                                          env: Env, c: Uuid)
    requires Sound(s, {}) && FullVisit(s, visits, seen, uuids, ws, env)
    requires c in ScrubKeys(s, visits, uuids, ws, env).composites && c !in s.composites
    ensures Fate(s, ScrubKeys(s, visits, uuids, ws, env), SeenBy(s, visits, seen, uuids, ws, env, c), ws, c)
    decreases |visits|
  {
    var (k, us) := visits[0];
    var s1, rest := ScrubKey(s, k, uuids, us, ws, env), visits[1..];
    var s' := ScrubKeys(s1, rest, uuids, ws, env);
    ScrubKeySound(s, k, uuids, us, ws, env);
    if c in s1.composites {
      ScrubKeysSound(s1, rest, seen + {k}, uuids, ws, env);
      GrantedNow(s, s1, s', k, seen + {k}, At(k, us), ws, env, c);
    } else {
      GrantedInClose(s1, rest, seen + {k}, uuids, ws, env, c);
      GrantedLater(s, s1, s', SeenBy(s1, rest, seen + {k}, uuids, ws, env, c), At(k, us), ws, env, c);
    }
  }

  // ----- A socket whose composites wait for keys of others -----

  /** No composite of the socket waits for a key that the socket holds. */
  ghost predicate Apart(t: Table, ws: Ws) {
    forall k, w :: Waits(t, k, w) && w.ws == ws && w.composite.Some? ==> Owned(t, k, ws) == {}
  }

  /** Nothing is unlocked, so nobody is served. */
  lemma ScrubUnheld(s: State, k: Key, uuids: set<Uuid>, us: seq<Uuid>, ws: Ws, env: Env)
    requires k in s.t.locks && Lists(us, {})
    ensures ScrubKey(s, k, uuids, us, ws, env) == s.(t := ScrubQueue(s.t, k, uuids, ws))
  {
    if us != [] { ListsSome(us, {}); }
  }

  lemma ListsSome(us: seq<Uuid>, owned: set<Uuid>)
    requires Lists(us, owned) && us != []
    ensures owned != {}
  {
    assert us[0] in us;
  }

  lemma FewerApart(t: Table, t': Table, ws: Ws)
    requires Apart(t, ws) && (forall x :: Holders(t', x) == Holders(t, x))
    requires forall x, w :: Waits(t', x, w) ==> Waits(t, x, w)
    ensures Apart(t', ws)
  {
    forall k, w | Waits(t', k, w) && w.ws == ws && w.composite.Some? ensures Owned(t', k, ws) == {} {
      assert Owned(t, k, ws) == {};
    }
  }

  /** Serving a key on which no composite of the socket waits grants none of them. */
  lemma ServedApart(s: State, s1: State, k: Key, gone: iset<(Key, Uuid)>, ws: Ws, env: Env)
    requires Sound(s, {}) && Sound(s1, {}) && NewWhole(s1, Recorded(s)) && Apart(s.t, ws)
    requires ServedFrom(s, s1, k) && Trades(s.t, s1.t, gone, env)
    requires forall w :: Waits(s.t, k, w) && w.ws == ws ==> w.composite.None?
    ensures Apart(s1.t, ws) && forall c :: c in s1.composites && c !in s.composites ==> !Queued(s.t, ws, c)
  {
    forall c | c in s1.composites && c !in s.composites ensures !Queued(s.t, ws, c) { ApartUnqueued(s, s1, k, ws, c); }
    forall x, v | Waits(s1.t, x, v) && v.ws == ws && v.composite.Some? ensures Owned(s1.t, x, ws) == {} {
      assert Waits(s.t, x, v) && Owned(s.t, x, ws) == {};
      forall u | u in Owned(s1.t, x, ws)
        ensures u in Owned(s.t, x, ws)
      {
        ApartNewcomer(s, s1, k, gone, ws, env, x, u);
      }
    }
  }

  lemma ApartUnqueued(s: State, s1: State, k: Key, ws: Ws, c: Uuid)
    requires WaitsOnce(s) && ServedFrom(s, s1, k) && c in s1.composites && c !in s.composites
    requires forall w :: Waits(s.t, k, w) && w.ws == ws ==> w.composite.None?
    ensures !Queued(s.t, ws, c)
  {
    var w :| Waits(s.t, k, w) && AsksAs(w, c, s1.composites[c].keys);
    assert Queued(s.t, w.ws, c);
    if Queued(s.t, ws, c) { OneAsker(s, c, ws, w.ws); }
  }

  /** A newcomer with a drawn uuid is a member of a composite that waited. */
  lemma NewcomerTag(s: State, s1: State, gone: iset<(Key, Uuid)>, env: Env, x: Key, u: Uuid)
    requires Registry(s) && TagsAgree(s1) && Trades(s.t, s1.t, gone, env)
    requires u in Holders(s1.t, x) && u !in Holders(s.t, x) && u.Minted?
    ensures var h := Holders(s1.t, x)[u];
      && h.composite.Some? && h.composite.value in s1.composites && h.composite.value !in s.composites
      && Queued(s.t, h.ws, h.composite.value)
  {
    assert TagAgrees(s1, x, u) && Newcomer(s.t, s1.t, x, u, env);
    var y, w :| Becomes(s.t, x, u, Holders(s1.t, x)[u], y, w, env);
    assert Waits(s.t, y, w);
  }

  lemma OwnedStays(t: Table, t1: Table, gone: iset<(Key, Uuid)>, ws: Ws, env: Env, x: Key, u: Uuid)
    requires Trades(t, t1, gone, env) && u in Owned(t1, x, ws) && u in Holders(t, x)
    ensures u in Owned(t, x, ws)
  {
    assert (x, u) !in gone && SameHolder(t, t1, x, u);
  }

  /** The socket is granted nothing but, as a single-key waiter, `k`. */
  lemma ApartNewcomer(s: State, s1: State, k: Key, gone: iset<(Key, Uuid)>, ws: Ws, env: Env, x: Key, u: Uuid)
    requires Registry(s) && Registry(s1) && ServedFrom(s, s1, k) && Trades(s.t, s1.t, gone, env)
    requires forall w :: Waits(s.t, k, w) && w.ws == ws ==> w.composite.None?
    requires u in Owned(s1.t, x, ws)
    ensures u in Owned(s.t, x, ws) || x == k
  {
    if u in Holders(s.t, x) {
      OwnedStays(s.t, s1.t, gone, ws, env, x, u);
    } else if u.Minted? {
      NewcomerTag(s, s1, gone, env, x, u);
      ApartUnqueued(s, s1, k, ws, Holders(s1.t, x)[u].composite.value);
    }
  }

  lemma ScrubKeyApart(s: State, k: Key, uuids: set<Uuid>, us: seq<Uuid>, ws: Ws, env: Env)
    requires k in s.t.locks && Sound(s, {}) && Lists(us, Owned(s.t, k, ws)) && Apart(s.t, ws)
    ensures var s1 := ScrubKey(s, k, uuids, us, ws, env);
      Apart(s1.t, ws) && forall c :: c in s1.composites && c !in s.composites ==> !Queued(s.t, ws, c)
  {
    if Owned(s.t, k, ws) == {} {
      ScrubUnheld(s, k, uuids, us, ws, env);
      ScrubbedSound(s, k, uuids, ws, env);
      ScrubQueueShrinks(s.t, k, uuids, ws);
      var t1 := ScrubQueue(s.t, k, uuids, ws);
      forall x, w | Waits(t1, x, w) ensures Waits(s.t, x, w) { if x != k { assert Queue(t1, x) == Queue(s.t, x); } }
      FewerApart(s.t, t1, ws);
    } else {
      ScrubKeySound(s, k, uuids, us, ws, env);
      ServedApart(s, ScrubKey(s, k, uuids, us, ws, env), k, At(k, us), ws, env);
    }
  }

  /** During such a close no composite of the socket is granted. */
  lemma {:induction false} ScrubKeysApart(s: State, visits: Visits, seen: set<Key>, uuids: set<Uuid>, ws: Ws,
                                          env: Env, c: Uuid)
    requires Sound(s, {}) && FullVisit(s, visits, seen, uuids, ws, env) && Apart(s.t, ws)
    requires c in ScrubKeys(s, visits, uuids, ws, env).composites && c !in s.composites
    ensures !Queued(s.t, ws, c)
    decreases |visits|
  {
    var (k, us) := visits[0];
    var s1, rest := ScrubKey(s, k, uuids, us, ws, env), visits[1..];
    ScrubKeySound(s, k, uuids, us, ws, env);
    ScrubKeyApart(s, k, uuids, us, ws, env);
    if c !in s1.composites {
      ScrubKeysApart(s1, rest, seen + {k}, uuids, ws, env, c);
      GrantedInClose(s1, rest, seen + {k}, uuids, ws, env, c);
      var o: Ws :| Queued(s1.t, o, c);
      QueuedBefore(s.t, s1.t, At(k, us), o, c, env);
      if Queued(s.t, ws, c) { OneAsker(s, c, ws, o); }
    }
  }

  // ----- Nothing left behind -----

  /** The socket answers for every uuid it waits under for a single key. */
  ghost predicate Answerable(t: Table, ws: Ws, uuids: set<Uuid>) {
    forall k, w :: Waits(t, k, w) && w.ws == ws && w.composite.None? ==> w.uuid in uuids
  }

  ghost predicate NoComposite(t: Table, ws: Ws) {
    forall k, w :: Waits(t, k, w) && w.ws == ws ==> w.composite.None?
  }

  /** No single-key waiter of `k` is the socket's. */
  ghost predicate NoWaiter(t: Table, k: Key, ws: Ws) {
    forall w :: Waits(t, k, w) && w.composite.None? ==> w.ws != ws
  }

  /** No holder and no waiter of `k` is the socket's. */
  ghost predicate Quiet(t: Table, k: Key, ws: Ws) {
    Owned(t, k, ws) == {} && forall w :: Waits(t, k, w) ==> w.ws != ws
  }

  lemma AnswerableKept(t: Table, t': Table, gone: iset<(Key, Uuid)>, ws: Ws, uuids: set<Uuid>, env: Env)
    requires Answerable(t, ws, uuids) && Trades(t, t', gone, env)
    ensures Answerable(t', ws, uuids) && (NoComposite(t, ws) ==> NoComposite(t', ws))
    ensures forall k :: NoWaiter(t, k, ws) ==> NoWaiter(t', k, ws)
  {
    forall k, w | Waits(t', k, w) && w.ws == ws && w.composite.None? ensures Waits(t, k, w) {}
  }

  lemma OwnedKept(t: Table, t': Table, gone: iset<(Key, Uuid)>, ws: Ws, env: Env)
    requires NoComposite(t, ws) && Trades(t, t', gone, env)
    ensures forall k, u :: NoWaiter(t, k, ws) && u in Owned(t', k, ws) ==> u in Owned(t, k, ws) && (k, u) !in gone
  {
    forall k, u | NoWaiter(t, k, ws) && u in Owned(t', k, ws) ensures u in Owned(t, k, ws) && (k, u) !in gone {
      if u in Holders(t, k) { OwnedStays(t, t', gone, ws, env, k, u); }
    }
  }

  lemma ScrubKeyAnswered(s: State, k: Key, uuids: set<Uuid>, us: seq<Uuid>, ws: Ws, env: Env)
    requires k in s.t.locks && Sound(s, {}) && Lists(us, Owned(s.t, k, ws)) && Answerable(s.t, ws, uuids)
    ensures var s' := ScrubKey(s, k, uuids, us, ws, env);
      && Answerable(s'.t, ws, uuids) && NoWaiter(s'.t, k, ws) && (NoComposite(s.t, ws) ==> NoComposite(s'.t, ws))
      && forall x :: NoWaiter(s.t, x, ws) ==> NoWaiter(s'.t, x, ws)
    ensures var s' := ScrubKey(s, k, uuids, us, ws, env);
      NoComposite(s.t, ws) ==> Owned(s'.t, k, ws) == {} && forall x :: Quiet(s.t, x, ws) ==> Owned(s'.t, x, ws) == {}
  {
    var s1 := s.(t := ScrubQueue(s.t, k, uuids, ws));
    var s' := ScrubKey(s, k, uuids, us, ws, env);
    ScrubbedSound(s, k, uuids, ws, env);
    ScrubQueueShrinks(s.t, k, uuids, ws);
    AnswerableKept(s.t, s1.t, iset{}, ws, uuids, env);
    OwnRecorded(s, s1, k, us, ws);
    UnlockOwnedSound(s1, k, us, ws, env, Owned(s.t, k, ws), Recorded(s));
    AnswerableKept(s1.t, s'.t, At(k, us), ws, uuids, env);
    assert NoWaiter(s1.t, k, ws);
    if NoComposite(s.t, ws) { OwnedGone(s, s1, s', k, us, ws, env); }
  }

  lemma OwnedGone(s: State, s1: State, s': State, k: Key, us: seq<Uuid>, ws: Ws, env: Env)
    requires NoComposite(s1.t, ws) && Trades(s1.t, s'.t, At(k, us), env) && Lists(us, Owned(s.t, k, ws))
    requires (forall x :: Holders(s1.t, x) == Holders(s.t, x)) && NoWaiter(s1.t, k, ws)
    requires forall x :: NoWaiter(s.t, x, ws) ==> NoWaiter(s1.t, x, ws)
    ensures Owned(s'.t, k, ws) == {} && forall x :: Quiet(s.t, x, ws) ==> Owned(s'.t, x, ws) == {}
  {
    OwnedKept(s1.t, s'.t, At(k, us), ws, env);
    assert forall u :: u in Owned(s1.t, k, ws) ==> (k, u) in At(k, us);
    forall x | Quiet(s.t, x, ws) ensures Owned(s'.t, x, ws) == {} {
      assert NoWaiter(s.t, x, ws) && Owned(s1.t, x, ws) == {};
    }
  }

  /** A socket that answers for all its single-key waiters leaves none of them behind. */
  lemma {:induction false} ScrubKeysAnswered(s: State, visits: Visits, seen: set<Key>, uuids: set<Uuid>, ws: Ws,
                                             env: Env)
    requires Sound(s, {}) && FullVisit(s, visits, seen, uuids, ws, env)
    requires Answerable(s.t, ws, uuids) && forall k :: k in seen ==> NoWaiter(s.t, k, ws)
    ensures forall k :: NoWaiter(ScrubKeys(s, visits, uuids, ws, env).t, k, ws)
    decreases |visits|
  {
    if visits == [] {
      forall k ensures NoWaiter(s.t, k, ws) { assert k !in s.t.locks ==> !exists w :: Waits(s.t, k, w); }
    } else {
      var (k, us) := visits[0];
      ScrubKeySound(s, k, uuids, us, ws, env);
      ScrubKeyAnswered(s, k, uuids, us, ws, env);
      ScrubKeysAnswered(ScrubKey(s, k, uuids, us, ws, env), visits[1..], seen + {k}, uuids, ws, env);
    }
  }

  /** ... and if it has no composite queued, no holder either. */
  lemma {:induction false} ScrubKeysQuiet(s: State, visits: Visits, seen: set<Key>, uuids: set<Uuid>, ws: Ws, env: Env)
    requires Sound(s, {}) && FullVisit(s, visits, seen, uuids, ws, env)
    requires Answerable(s.t, ws, uuids) && NoComposite(s.t, ws) && forall k :: k in seen ==> Quiet(s.t, k, ws)
    ensures forall k :: Quiet(ScrubKeys(s, visits, uuids, ws, env).t, k, ws)
    decreases |visits|
  {
    if visits == [] {
      forall k ensures Quiet(s.t, k, ws) { assert k !in s.t.locks ==> !exists w :: Waits(s.t, k, w); }
    } else {
      var (k, us) := visits[0];
      var s1 := ScrubKey(s, k, uuids, us, ws, env);
      ScrubKeySound(s, k, uuids, us, ws, env);
      ScrubKeyAnswered(s, k, uuids, us, ws, env);
      forall x | x in seen + {k} ensures Quiet(s1.t, x, ws) {
        if x != k { assert NoWaiter(s.t, x, ws); }
        assert NoWaiter(s1.t, x, ws) && NoComposite(s1.t, ws);
      }
      ScrubKeysQuiet(s1, visits[1..], seen + {k}, uuids, ws, env);
    }
  }
}

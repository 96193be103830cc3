/** The releasing steps: unlock, release-many, the TTL sweep. Each keeps the books and the
    registry, and takes away exactly the holders it is meant to. */
module Releases {
  import opened BrokerTypes
  import opened BrokerSpec
  import opened BrokerSteps
  import opened Bookkeeping
  import opened Registries
  import opened Survival

  /** The holders of `k` that `t'` no longer has. */
  ghost function Goers(t: Table, t': Table, k: Key): iset<(Key, Uuid)> {
    iset u | u in Holders(t, k) && u !in Holders(t', k) :: (k, u)
  }

  lemma ShrinkTrades(t: Table, t': Table, k: Key, rows: set<Uuid>, dying: set<Uuid>, dying': set<Uuid>, env: Env)
    requires Shrinks(t, t', k, rows, dying, dying')
    ensures Trades(t, t', Goers(t, t', k), env)
  {
    forall x, u | u in Holders(t, x)
      ensures if (x, u) in Goers(t, t', k) then u !in Holders(t', x) else SameHolder(t, t', x, u)
    {
      if x != k { assert Holders(t', x) == Holders(t, x); }
      else if u in Holders(t', k) { assert SameHolder(t', t, k, u); }
    }
    forall x, u | u in Holders(t', x) ensures u in Holders(t, x) {
      if x != k { assert Holders(t', x) == Holders(t, x); } else { assert SameHolder(t', t, k, u); }
    }
    forall x, w | Waits(t', x, w) ensures Waits(t, x, w) {
      if x != k { assert Queue(t', x) == Queue(t, x); }
    }
    forall x, w, v | InLine(t, x, w, v) && Waits(t', x, w) && Waits(t', x, v) ensures InLine(t', x, w, v) {
      if x != k { assert Queue(t', x) == Queue(t, x); }
    }
  }

  /** Take holders away from `k`, then serve its queue. `s` is the state before, `s1` after the
      taking away (replies included). */
  lemma FreeThenServe(s: State, s1: State, k: Key, rows: set<Uuid>, dying: set<Uuid>, dying': set<Uuid>,
                      gone: Option<Uuid>, env: Env, prior: iset<Uuid>)
    requires k in s.t.locks && Sound(s, dying) && NewWhole(s, prior)
    requires Shrinks(s.t, s1.t, k, rows, dying, dying') && s1.composites == s.composites
    requires GoersOld(s.t, s1.t, k, prior)
    requires gone.Some? ==> gone.value !in Holders(s1.t, k) && gone.value !in s1.t.deadlines
    ensures var s' := EnsureNewLockHolder(s1, k, gone, env);
      && Sound(s', dying') && NewWhole(s', prior) && KeepsRecords(s, s') && ServedFrom(s, s', k)
      && Trades(s.t, s'.t, Goers(s.t, s1.t, k), env) && s.t.locks.Keys <= s'.t.locks.Keys
  {
    ShrinkSound(s, s1, k, rows, dying, dying', prior);
    ShrinkServed(s, s1, k, rows, dying, dying');
    EnsureSound(s1, k, gone, env, dying', prior);
    ShrinkTrades(s.t, s1.t, k, rows, dying, dying', env);
    var s' := EnsureNewLockHolder(s1, k, gone, env);
    ServedTwice(s, s1, s', k);
    TradesTransitive(s.t, s1.t, s'.t, Goers(s.t, s1.t, k), iset{}, env);
    assert Goers(s.t, s1.t, k) + iset{} == Goers(s.t, s1.t, k);
  }

  lemma ShrinkServed(s: State, s1: State, k: Key, rows: set<Uuid>, dying: set<Uuid>, dying': set<Uuid>)
    requires Shrinks(s.t, s1.t, k, rows, dying, dying') && s1.composites == s.composites
    ensures ServedFrom(s, s1, k)
  {
    forall x, w | Waits(s1.t, x, w) ensures Waits(s.t, x, w) {
      if x != k { assert Queue(s1.t, x) == Queue(s.t, x); }
    }
    forall x, u | u in Holders(s1.t, x) ensures u in Holders(s.t, x) {
      if x != k { assert Holders(s1.t, x) == Holders(s.t, x); } else { assert SameHolder(s1.t, s.t, k, u); }
    }
    FewerServed(s, s1, k);
  }

  /** Dropping one uuid of `k` (a holder of it, or of nothing), with its row. */
  ghost predicate DropsOne(t: Table, t': Table, k: Key, u: Uuid) {
    && t'.minted == t.minted && t'.deadlines == t.deadlines - {u} && t.locks.Keys == t'.locks.Keys
    && (forall x :: Queue(t', x) == Queue(t, x))
    && (forall x :: Holders(t', x) == if x == k then Holders(t, k) - {u} else Holders(t, x))
  }

  lemma DropOneShrinks(t: Table, t': Table, k: Key, u: Uuid, dying: set<Uuid>)
    requires Books(t, dying) && DropsOne(t, t', k, u) && forall x :: x != k ==> u !in Holders(t, x)
    ensures Shrinks(t, t', k, {u}, dying, dying - {u})
    ensures u !in Holders(t', k) && u !in t'.deadlines
    ensures Goers(t, t', k) == if u in Holders(t, k) then iset{(k, u)} else iset{}
  {
    assert forall w :: Waits(t', k, w) ==> Waits(t, k, w);
    forall x, v | v in Holders(t', x) && v in {u} + dying ensures v in dying - {u} {
      assert x != k ==> Holders(t', x) == Holders(t, x);
    }
    forall v | v in dying - {u} ensures Held(t', v) {
      assert Held(t, v);
      var x :| v in Holders(t, x);
      assert v in Holders(t', x);
    }
  }

  // ----- unlock -----

  /** `k` remembers that `u` was evicted or released. */
  predicate Late(t: Table, k: Key, u: Uuid) {
    k in t.locks && u in t.locks[k].timedOut + t.locks[k].released
  }

  /** The request is taken for a late one: it names, unforced, a uuid that does not hold its key but
      that its key remembers. */
  predicate TakenForLate(t: Table, req: UnlockReq) {
    && req.target.Some? && !req.force
    && req.target.value !in Holders(t, req.key) && Late(t, req.key, req.target.value)
  }

  /** An unlock taken for a late one does not name a uuid that by now holds another key. */
  ghost predicate NamesOwnKey(t: Table, req: UnlockReq) {
    TakenForLate(t, req) ==> forall x :: req.target.value !in Holders(t, x)
  }

  /** The closing socket's own unlocks name holders of the key; other unlocks come when nobody is dying. */
  ghost predicate DyingNamed(t: Table, req: UnlockReq, dying: set<Uuid>) {
    dying != {} ==> req.target.Some? && req.target.value in Holders(t, req.key)
  }

  /** What an unlock request takes away: the holder it names, or with `force` and no name all. */
  ghost predicate Unlocks(req: UnlockReq, k: Key, u: Uuid) {
    k == req.key && if req.target.Some? then req.target.value == u else req.force
  }

  ghost function Unlocked(t: Table, req: UnlockReq): iset<(Key, Uuid)> {
    iset k, u | u in Holders(t, k) && Unlocks(req, k, u) :: (k, u)
  }

  /** The holders an unlock takes away are not members of composites registered since `prior`. */
  ghost predicate UnlocksPrior(t: Table, req: UnlockReq, prior: iset<Uuid>) {
    forall u :: u in Holders(t, req.key) && Unlocks(req, req.key, u) ==>
      Holders(t, req.key)[u].composite.None? || Holders(t, req.key)[u].composite.value in prior
  }

  lemma WipeShrinks(t: Table, k: Key)
    requires k in t.locks && Books(t, {})
    ensures Shrinks(t, Wipe(t, k), k, Holders(t, k).Keys, {}, {})
  {
    var t' := Wipe(t, k);
    assert forall w :: Waits(t', k, w) ==> Waits(t, k, w);
    forall x | x != k ensures Holders(t', x) == Holders(t, x) && Queue(t', x) == Queue(t, x) {}
    assert QueuesDistinct(t') by { assert forall x :: Queue(t', x) == Queue(t, x); }
    forall x, u | u in Holders(t', x) ensures x != k && u in Holders(t, x) && u !in Holders(t, k) {}
  }

  lemma ReleaseDrops(t: Table, k: Key, u: Uuid)
    requires k in t.locks
    ensures DropsOne(t, Release(t, k, u), k, u) && DropsOne(t, Drop(t, k, u), k, u)
  {}

  lemma UnlockSound(s: State, ws: Option<Ws>, req: UnlockReq, env: Env, dying: set<Uuid>, prior: iset<Uuid>)
    requires Sound(s, dying) && NewWhole(s, prior)
    requires NamesOwnKey(s.t, req) && UnlocksPrior(s.t, req, prior) && DyingNamed(s.t, req, dying)
    ensures var s' := Unlock(s, ws, req, env);
      && Sound(s', if req.target.Some? then dying - {req.target.value} else {})
      && NewWhole(s', prior) && KeepsRecords(s, s') && ServedFrom(s, s', req.key)
      && Trades(s.t, s'.t, Unlocked(s.t, req), env) && s.t.locks.Keys <= s'.t.locks.Keys
  {
    if req.key in s.t.locks && Freeing(s.t, req).Some? {
      UnlockFreed(s, Answered(s, ws, req, env), req, env, dying, prior);
      UnlockAnswers(s, ws, req, env);
    } else {
      RefusedSame(s, ws, req, env);
      UnlockRefused(s, Unlock(s, ws, req, env), req, env, dying, prior);
    }
  }

  /** The state in which an unlock that freed something goes on to serve the queue. */
  function Answered(s: State, ws: Option<Ws>, req: UnlockReq, env: Env): State
    requires req.key in s.t.locks && Freeing(s.t, req).Some?
  {
    ReplyUnlock(Forget(s, ws, req.target).(t := Freeing(s.t, req).value), ws, req, |Queue(s.t, req.key)|, true, env)
  }

  lemma UnlockAnswers(s: State, ws: Option<Ws>, req: UnlockReq, env: Env)
    requires req.key in s.t.locks && Freeing(s.t, req).Some?
    ensures req.key in Answered(s, ws, req, env).t.locks && Answered(s, ws, req, env).composites == s.composites
    ensures Answered(s, ws, req, env).t == Freeing(s.t, req).value
    ensures Unlock(s, ws, req, env) == EnsureNewLockHolder(Answered(s, ws, req, env), req.key, req.target, env)
  {}

  lemma RefusedSame(s: State, ws: Option<Ws>, req: UnlockReq, env: Env)
    requires req.key !in s.t.locks || Freeing(s.t, req).None?
    ensures Unlock(s, ws, req, env).t == s.t && Unlock(s, ws, req, env).composites == s.composites
  {}

  lemma UnlockFreed(s: State, s1: State, req: UnlockReq, env: Env, dying: set<Uuid>, prior: iset<Uuid>)
    requires Sound(s, dying) && NewWhole(s, prior)
    requires NamesOwnKey(s.t, req) && UnlocksPrior(s.t, req, prior) && DyingNamed(s.t, req, dying)
    requires req.key in s.t.locks && Freeing(s.t, req) == Some(s1.t) && s1.composites == s.composites
    ensures var s' := EnsureNewLockHolder(s1, req.key, req.target, env);
      && Sound(s', if req.target.Some? then dying - {req.target.value} else {})
      && NewWhole(s', prior) && KeepsRecords(s, s') && ServedFrom(s, s', req.key)
      && Trades(s.t, s'.t, Unlocked(s.t, req), env) && s.t.locks.Keys <= s'.t.locks.Keys
  {
    if req.target.None? {
      UnlockWipe(s, s1, req, env, prior);
    } else if req.target.value in Holders(s.t, req.key) {
      UnlockHolder(s, s1, req, env, dying, prior);
    } else {
      UnlockLate(s, s1, req, env, prior);
    }
  }

  lemma UnlockWipe(s: State, s1: State, req: UnlockReq, env: Env, prior: iset<Uuid>)
    requires Sound(s, {}) && NewWhole(s, prior) && UnlocksPrior(s.t, req, prior)
    requires req.key in s.t.locks && req.target.None? && req.force
    requires s1.t == Wipe(s.t, req.key) && s1.composites == s.composites
    ensures var s' := EnsureNewLockHolder(s1, req.key, None, env);
      && Sound(s', {}) && NewWhole(s', prior) && KeepsRecords(s, s') && ServedFrom(s, s', req.key)
      && Trades(s.t, s'.t, Unlocked(s.t, req), env) && s.t.locks.Keys <= s'.t.locks.Keys
  {
    var k := req.key;
    WipeShrinks(s.t, k);
    assert GoersOld(s.t, s1.t, k, prior);
    FreeThenServe(s, s1, k, Holders(s.t, k).Keys, {}, {}, None, env, prior);
    assert Goers(s.t, s1.t, k) == Unlocked(s.t, req);
  }

  lemma UnlockHolder(s: State, s1: State, req: UnlockReq, env: Env, dying: set<Uuid>, prior: iset<Uuid>)
    requires Sound(s, dying) && NewWhole(s, prior) && UnlocksPrior(s.t, req, prior)
    requires req.key in s.t.locks && req.target.Some? && req.target.value in Holders(s.t, req.key)
    requires s1.t == Release(s.t, req.key, req.target.value) && s1.composites == s.composites
    ensures var s' := EnsureNewLockHolder(s1, req.key, req.target, env);
      && Sound(s', dying - {req.target.value}) && NewWhole(s', prior)
      && KeepsRecords(s, s') && ServedFrom(s, s', req.key)
      && Trades(s.t, s'.t, Unlocked(s.t, req), env) && s.t.locks.Keys <= s'.t.locks.Keys
  {
    var k, u := req.key, req.target.value;
    ReleaseDrops(s.t, k, u);
    DropOneShrinks(s.t, s1.t, k, u, dying);
    UnlocksGoer(s.t, s1.t, req, prior);
    FreeThenServe(s, s1, k, {u}, dying, dying - {u}, req.target, env, prior);
  }

  lemma UnlocksGoer(t: Table, t1: Table, req: UnlockReq, prior: iset<Uuid>)
    requires UnlocksPrior(t, req, prior) && req.target.Some? && req.target.value in Holders(t, req.key)
    requires DropsOne(t, t1, req.key, req.target.value)
    ensures GoersOld(t, t1, req.key, prior) && Goers(t, t1, req.key) == Unlocked(t, req)
  {}

  lemma UnlockLate(s: State, s1: State, req: UnlockReq, env: Env, prior: iset<Uuid>)
    requires Sound(s, {}) && NewWhole(s, prior) && NamesOwnKey(s.t, req)
    requires req.key in s.t.locks && TakenForLate(s.t, req)
    requires s1.t == ForgetLate(s.t, req.key, req.target.value) && s1.composites == s.composites
    ensures var s' := EnsureNewLockHolder(s1, req.key, req.target, env);
      && Sound(s', {}) && NewWhole(s', prior) && KeepsRecords(s, s') && ServedFrom(s, s', req.key)
      && Trades(s.t, s'.t, Unlocked(s.t, req), env) && s.t.locks.Keys <= s'.t.locks.Keys
  {
    NotHeldNoRow(s.t, req.target.value, {});
    SameBooksSound(s, s1, {}, prior, env);
    SameBooksServed(s, s1, req.key);
    EnsureSound(s1, req.key, req.target, env, {}, prior);
    var s' := EnsureNewLockHolder(s1, req.key, req.target, env);
    ServedTwice(s, s1, s', req.key);
    ExtendsTransitive(s.t, s1.t, s'.t, env);
    assert Unlocked(s.t, req) == iset{};
  }

  lemma SameBooksServed(s: State, s': State, k: Key)
    requires SameBooks(s.t, s'.t) && s'.composites == s.composites
    ensures ServedFrom(s, s', k)
  {
    assert forall x, w :: Waits(s'.t, x, w) ==> Waits(s.t, x, w);
    FewerServed(s, s', k);
  }

  lemma NotHeldNoRow(t: Table, u: Uuid, dying: set<Uuid>)
    requires Books(t, dying) && forall x :: u !in Holders(t, x)
    ensures u !in t.deadlines && u !in dying
  {
    assert u in t.deadlines ==> u in Holders(t, t.deadlines[u].key);
    assert !Held(t, u);
  }

  lemma UnlockRefused(s: State, s': State, req: UnlockReq, env: Env, dying: set<Uuid>, prior: iset<Uuid>)
    requires Sound(s, dying) && NewWhole(s, prior) && DyingNamed(s.t, req, dying)
    requires s'.t == s.t && s'.composites == s.composites
    requires req.key !in s.t.locks || Freeing(s.t, req).None?
    ensures Sound(s', if req.target.Some? then dying - {req.target.value} else {}) && NewWhole(s', prior)
    ensures KeepsRecords(s, s') && ServedFrom(s, s', req.key) && Trades(s.t, s'.t, Unlocked(s.t, req), env)
  {
    assert dying == {};
    SameBooksSound(s, s', {}, prior, env);
    SameBooksServed(s, s', req.key);
    assert Unlocked(s.t, req) == iset{};
  }

  /** An unlock taken for a late one although its uuid holds another key: the holder stays, but its
      deadline row is gone. */
  lemma MisnamedLosesRow(s: State, from: Option<Ws>, req: UnlockReq, env: Env)
    requires Sound(s, {}) && !NamesOwnKey(s.t, req)
    ensures var (s', u) := (Unlock(s, from, req, env), req.target.value);
      && (forall x :: u in Holders(s.t, x) ==> SameHolder(s.t, s'.t, x, u)) && u !in s'.t.deadlines
      && (Sound(s', {}) <==> u !in s.t.deadlines)
  {
    var k, u := req.key, req.target.value;
    var x :| u in Holders(s.t, x);
    var s1 := Answered(s, from, req, env);
    var s2 := s1.(t := Drop(s1.t, k, u));
    UnlockAnswers(s, from, req, env);
    MisnamedDrops(s, s1, s2, k, u, x);
    assert Unlock(s, from, req, env) == EnsureNewLockHolder(s2, k, None, env);
    EnsureSound(s2, k, None, env, {u}, Recorded(s));
    if u !in s.t.deadlines { EnsureSound(s2, k, None, env, {}, Recorded(s)); }
    Rowless(s, s2, Unlock(s, from, req, env), u, x, env);
  }

  lemma Rowless(s: State, s2: State, s': State, u: Uuid, x: Key, env: Env)
    requires Sound(s, {}) && Sound(s', {u}) && u in Holders(s.t, x) && Extends(s2.t, s'.t, env)
    requires forall y :: Holders(s2.t, y) == Holders(s.t, y)
    ensures (forall y :: u in Holders(s.t, y) ==> SameHolder(s.t, s'.t, y, u)) && u !in s'.t.deadlines
    ensures u in s.t.deadlines ==> !Sound(s', {})
  {
    assert u in Holders(s2.t, x) && SameHolder(s2.t, s'.t, x, u);
    forall y | u in Holders(s.t, y) ensures SameHolder(s.t, s'.t, y, u) { assert SameHolder(s2.t, s'.t, y, u); }
    assert RowAgrees(s'.t, x, u, {u}) && RowAgrees(s.t, x, u, {});
    if Sound(s', {}) { assert RowAgrees(s'.t, x, u, {}); }
  }

  /** Dropping `u` from a key it does not hold takes its row only. */
  lemma MisnamedDrops(s: State, s1: State, s2: State, k: Key, u: Uuid, x: Key)
    requires Sound(s, {}) && k in s.t.locks && u in Holders(s.t, x) && u !in Holders(s.t, k)
    requires s1.t == ForgetLate(s.t, k, u) && s1.composites == s.composites && s2 == s1.(t := Drop(s1.t, k, u))
    ensures k in s2.t.locks && Sound(s2, {u}) && NewWhole(s2, Recorded(s)) && (u !in s.t.deadlines ==> Sound(s2, {}))
    ensures forall y :: Holders(s2.t, y) == Holders(s.t, y)
  {
    RowOnly(s.t, k, u);
    RowShrinks(s.t, s2.t, k, u, x);
    ShrinkSound(s, s2, k, {u}, {}, {u}, Recorded(s));
    if u !in s.t.deadlines { ShrinkSound(s, s2, k, {}, {}, {}, Recorded(s)); }
  }

  ghost predicate RowGone(t: Table, t': Table, u: Uuid) {
    && t'.minted == t.minted && t'.deadlines == t.deadlines - {u} && t.locks.Keys == t'.locks.Keys
    && forall y :: Holders(t', y) == Holders(t, y) && Queue(t', y) == Queue(t, y)
  }

  lemma RowOnly(t: Table, k: Key, u: Uuid)
    requires k in t.locks && u !in Holders(t, k)
    ensures RowGone(t, Drop(ForgetLate(t, k, u), k, u), u)
  {
    assert t.locks[k].holders - {u} == t.locks[k].holders;
  }

  lemma RowShrinks(t: Table, t': Table, k: Key, u: Uuid, x: Key)
    requires RowGone(t, t', u) && QueuesDistinct(t) && u in Holders(t, x)
    ensures Shrinks(t, t', k, {u}, {}, {u})
    ensures u !in t.deadlines ==> Shrinks(t, t', k, {}, {}, {})
  {
    assert forall w :: Waits(t', k, w) <==> Waits(t, k, w);
    assert Held(t', u) by { assert u in Holders(t', x); }
    if u !in t.deadlines { assert t.deadlines - {u} == t.deadlines; }
  }

  // ----- release-many -----

  ghost function Members(ks: seq<Key>, us: map<Key, Uuid>): iset<(Key, Uuid)> {
    iset k | k in ks && k in us :: (k, us[k])
  }

  lemma {:induction false} ReleaseMembersSound(s: State, c: Uuid, ks: seq<Key>, us: map<Key, Uuid>, env: Env,
                                               prior: iset<Uuid>)
    requires Sound(s, {}) && NewWhole(s, prior) && c in prior && c in s.composites && s.composites[c].holderUuids == us
    requires Distinct(ks)
    ensures var s' := ReleaseMembers(s, ks, us, env);
      && Sound(s', {}) && NewWhole(s', prior) && KeepsRecords(s, s')
      && Trades(s.t, s'.t, Members(ks, us), env)
    decreases |ks|
  {
    if ks == [] {
      assert Members(ks, us) == iset{};
    } else {
      var k := ks[0];
      var rest := ks[1..];
      var one: iset<(Key, Uuid)> := if k in us then iset{(k, us[k])} else iset{};
      var s1 := if k !in us || k !in s.t.locks then s
                else EnsureNewLockHolder(s.(t := ReleaseMember(s.t, k, us[k])), k, Some(us[k]), env);
      if k in us && k in s.t.locks { ReleaseMemberSound(s, c, k, env, prior); }
      ReleaseMembersSound(s1, c, rest, us, env, prior);
      TradesTransitive(s.t, s1.t, ReleaseMembers(s1, rest, us, env).t, one, Members(rest, us), env);
      MembersCons(ks, us);
    }
  }

  lemma MembersCons(ks: seq<Key>, us: map<Key, Uuid>)
    requires ks != []
    ensures (if ks[0] in us then iset{(ks[0], us[ks[0]])} else iset{}) + Members(ks[1..], us) == Members(ks, us)
  {
    assert forall x :: x in ks <==> x == ks[0] || x in ks[1..];
  }

  lemma ReleaseMemberSound(s: State, c: Uuid, k: Key, env: Env, prior: iset<Uuid>)
    requires Sound(s, {}) && NewWhole(s, prior) && c in prior && c in s.composites
    requires k in s.composites[c].holderUuids && k in s.t.locks
    ensures var u := s.composites[c].holderUuids[k];
      var s' := EnsureNewLockHolder(s.(t := ReleaseMember(s.t, k, u)), k, Some(u), env);
      && Sound(s', {}) && NewWhole(s', prior) && KeepsRecords(s, s')
      && Trades(s.t, s'.t, iset{(k, u)}, env)
  {
    var u := s.composites[c].holderUuids[k];
    var s1 := s.(t := ReleaseMember(s.t, k, u));
    assert Member(s, c, k, u);
    ReleaseDrops(s.t, k, u);
    DropOneShrinks(s.t, s1.t, k, u, {});
    assert GoersOld(s.t, s1.t, k, prior);
    FreeThenServe(s, s1, k, {u}, {}, {}, Some(u), env, prior);
    TradesMore(s.t, EnsureNewLockHolder(s1, k, Some(u), env).t, Goers(s.t, s1.t, k), iset{(k, u)}, env);
  }

  /** Naming uuids that are not there takes nothing more away. */
  lemma TradesMore(t: Table, t': Table, gone: iset<(Key, Uuid)>, more: iset<(Key, Uuid)>, env: Env)
    requires Trades(t, t', gone, env)
    requires forall k, u :: u in Holders(t, k) ==> ((k, u) in gone <==> (k, u) in more)
    ensures Trades(t, t', more, env)
  {}

  // ----- tickTtl -----

  lemma TimeOutDrops(t: Table, k: Key, u: Uuid)
    requires k in t.locks
    ensures DropsOne(t, TimeOut(DropRow(t, u), k, u), k, u)
  {}

  ghost function Evicted(expired: seq<(Uuid, Key)>): iset<(Key, Uuid)> {
    iset e | e in expired :: (e.1, e.0)
  }

  ghost predicate DueHolder(t: Table, u: Uuid, k: Key, prior: iset<Uuid>) {
    u in Holders(t, k) && (Holders(t, k)[u].composite.None? || Holders(t, k)[u].composite.value in prior)
  }

  /** The rows to evict name live holders, of clients or of composites registered by `prior`. */
  ghost predicate Due(t: Table, expired: seq<(Uuid, Key)>, prior: iset<Uuid>) {
    && Distinct(expired)
    && forall e :: e in expired ==> DueHolder(t, e.0, e.1, prior)
  }

  lemma {:induction false} SweepSound(s: State, expired: seq<(Uuid, Key)>, env: Env, prior: iset<Uuid>)
    requires Sound(s, {}) && NewWhole(s, prior) && Due(s.t, expired, prior)
    ensures var s' := Sweep(s, expired, env);
      && Sound(s', {}) && NewWhole(s', prior) && KeepsRecords(s, s')
      && Trades(s.t, s'.t, Evicted(expired), env)
    decreases |expired|
  {
    if expired == [] {
      assert Evicted(expired) == iset{};
    } else {
      var (u, k) := expired[0];
      var s1, rest := Evict(s, u, k, env), expired[1..];
      assert expired[0] in expired;
      EvictSound(s, u, k, env, prior);
      DueStill(s.t, s1.t, expired, env, prior);
      SweepSound(s1, rest, env, prior);
      TradesTransitive(s.t, s1.t, Sweep(s1, rest, env).t, iset{(k, u)}, Evicted(rest), env);
      EvictedCons(expired);
    }
  }

  lemma EvictedCons(expired: seq<(Uuid, Key)>)
    requires expired != []
    ensures iset{(expired[0].1, expired[0].0)} + Evicted(expired[1..]) == Evicted(expired)
  {
    assert forall e :: e in expired <==> e == expired[0] || e in expired[1..];
  }

  lemma DueStill(t: Table, t1: Table, expired: seq<(Uuid, Key)>, env: Env, prior: iset<Uuid>)
    requires expired != [] && Due(t, expired, prior) && Trades(t, t1, iset{(expired[0].1, expired[0].0)}, env)
    ensures Due(t1, expired[1..], prior)
  {
    forall e | e in expired[1..] ensures DueHolder(t1, e.0, e.1, prior) {
      assert e in expired && e != expired[0];
      assert DueHolder(t, e.0, e.1, prior) && SameHolder(t, t1, e.1, e.0);
    }
  }

  lemma EvictSound(s: State, u: Uuid, k: Key, env: Env, prior: iset<Uuid>)
    requires Sound(s, {}) && NewWhole(s, prior) && DueHolder(s.t, u, k, prior)
    ensures var s' := Evict(s, u, k, env);
      && Sound(s', {}) && NewWhole(s', prior) && KeepsRecords(s, s')
      && Trades(s.t, s'.t, iset{(k, u)}, env)
  {
    var s1 := s.(t := TimeOut(DropRow(s.t, u), k, u));
    TimeOutDrops(s.t, k, u);
    DropOneShrinks(s.t, s1.t, k, u, {});
    FreeThenServe(s, s1, k, {u}, {}, {}, Some(u), env, prior);
  }
}

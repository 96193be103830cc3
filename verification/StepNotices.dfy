/** Whoever is granted is told: through every step. And what release-many answers. */
module StepNotices {
  import opened BrokerTypes
  import opened BrokerSpec
  import opened BrokerSteps
  import opened Events
  import opened Records
  import opened Invariants
  import opened Bookkeeping
  import opened Registries
  import opened Survival
  import opened Releases
  import opened Requests
  import opened Disconnects
  import opened Safety
  import opened Notices
  import opened Answers

  // ----- Freeing a key, then serving it -----

  lemma EnsureNotifies(s: State, k: Key, gone: Option<Uuid>, env: Env, dying: set<Uuid>)
    requires k in s.t.locks && Sound(s, dying)
    requires gone.Some? ==> gone.value !in Holders(s.t, k) && gone.value !in s.t.deadlines
    ensures var s' := EnsureNewLockHolder(s, k, gone, env);
      Notifies(s, s', env.live) && Awaited(s, s') && OnlyGrants(s, s')
  {
    DropAbsent(s.t, k, gone);
    if Holders(s.t, k) == map[] && Queue(s.t, k) == [] {
      NoNews(s, s.(t := MarkEmptied(s.t, k, env)), env.live);
    } else {
      DrainNotifies(s, k, env, dying);
    }
  }

  /** `s1` is `s` with holders taken from `k`, and perhaps a reply. */
  lemma FreedNotifies(s: State, s1: State, k: Key, rows: set<Uuid>, dying: set<Uuid>, dying': set<Uuid>,
                      gone: Option<Uuid>, env: Env)
    requires k in s.t.locks && Sound(s, dying) && Shrinks(s.t, s1.t, k, rows, dying, dying')
    requires s1.composites == s.composites && Replies(s, s1)
    requires gone.Some? ==> gone.value !in Holders(s1.t, k) && gone.value !in s1.t.deadlines
    ensures var s' := EnsureNewLockHolder(s1, k, gone, env);
      && Notifies(s, s', env.live) && Awaited(s, s') && OnlyGrants(s1, s')
      && (s1.out == s.out ==> OnlyGrants(s, s'))
  {
    var s' := EnsureNewLockHolder(s1, k, gone, env);
    ShrinkBooks(s.t, s1.t, k, rows, dying, dying');
    ShrinkRegistry(s, s1, k, rows, dying, dying');
    ShrinkTrades(s.t, s1.t, k, rows, dying, dying', env);
    ShrinkServed(s, s1, k, rows, dying, dying');
    ShrunkNoNews(s, s1, Goers(s.t, s1.t, k), env);
    EnsureNotifies(s1, k, gone, env, dying');
    EnsureSound(s1, k, gone, env, dying', Recorded(s1));
    NotifiesTwice(s, s1, s', dying, dying', Goers(s.t, s1.t, k), iset{}, env, env.live);
  }

  /** Frames that tell of no grant. */
  ghost predicate Replies(s: State, s': State) {
    s.out <= s'.out && forall i :: |s.out| <= i < |s'.out| ==> !IsGrant(s'.out[i])
  }

  lemma ShrunkNoNews(s: State, s1: State, gone: iset<(Key, Uuid)>, env: Env)
    requires s1.composites == s.composites && Replies(s, s1) && Trades(s.t, s1.t, gone, env)
    requires forall x, u :: u in Holders(s1.t, x) ==> u in Holders(s.t, x)
    ensures Notifies(s, s1, env.live) && Awaited(s, s1)
  {
    NoNews(s, s1, env.live);
  }

  // ----- unlock -----

  lemma AnsweredReplies(s: State, ws: Option<Ws>, req: UnlockReq, env: Env)
    requires req.key in s.t.locks && Freeing(s.t, req).Some?
    ensures Replies(s, Answered(s, ws, req, env)) && |Answered(s, ws, req, env).out| <= |s.out| + 1
    ensures ws.None? || req.uuid.None? ==> Answered(s, ws, req, env).out == s.out
  {}

  lemma RefusedReplies(s: State, ws: Option<Ws>, req: UnlockReq, env: Env)
    requires req.key !in s.t.locks || Freeing(s.t, req).None?
    ensures Replies(s, Unlock(s, ws, req, env)) && |Unlock(s, ws, req, env).out| <= |s.out| + 1
    ensures ws.None? || req.uuid.None? ==> Unlock(s, ws, req, env).out == s.out
  {}

  lemma UnlockNotifies(s: State, ws: Option<Ws>, req: UnlockReq, env: Env, dying: set<Uuid>)
    requires Sound(s, dying) && NamesOwnKey(s.t, req) && DyingNamed(s.t, req, dying)
    ensures var s' := Unlock(s, ws, req, env);
      && Notifies(s, s', env.live) && Awaited(s, s') && (ws.None? || req.uuid.None? ==> OnlyGrants(s, s'))
      && forall i :: |s.out| < i < |s'.out| ==> IsGrant(s'.out[i])
  {
    if req.key in s.t.locks && Freeing(s.t, req).Some? {
      var s1 := Answered(s, ws, req, env);
      UnlockAnswers(s, ws, req, env);
      AnsweredReplies(s, ws, req, env);
      FreedUnlockNotifies(s, s1, req, env, dying);
    } else {
      RefusedSame(s, ws, req, env);
      RefusedReplies(s, ws, req, env);
      NoNews(s, Unlock(s, ws, req, env), env.live);
    }
  }

  lemma FreedUnlockNotifies(s: State, s1: State, req: UnlockReq, env: Env, dying: set<Uuid>)
    requires Sound(s, dying) && NamesOwnKey(s.t, req) && DyingNamed(s.t, req, dying)
    requires req.key in s.t.locks && Freeing(s.t, req) == Some(s1.t) && s1.composites == s.composites && Replies(s, s1)
    ensures var s' := EnsureNewLockHolder(s1, req.key, req.target, env);
      && Notifies(s, s', env.live) && Awaited(s, s') && OnlyGrants(s1, s')
      && (s1.out == s.out ==> OnlyGrants(s, s'))
  {
    var k := req.key;
    var rows, dying' := FreedShrinks(s, s1, req, dying);
    FreedNotifies(s, s1, k, rows, dying, dying', req.target, env);
  }

  /** What an unlock takes away. */
  lemma FreedShrinks(s: State, s1: State, req: UnlockReq, dying: set<Uuid>) returns (rows: set<Uuid>, dying': set<Uuid>)
    requires Sound(s, dying) && NamesOwnKey(s.t, req) && DyingNamed(s.t, req, dying)
    requires req.key in s.t.locks && Freeing(s.t, req) == Some(s1.t)
    ensures Shrinks(s.t, s1.t, req.key, rows, dying, dying')
    ensures req.target.Some? ==> req.target.value !in Holders(s1.t, req.key) && req.target.value !in s1.t.deadlines
  {
    var k := req.key;
    if req.target.None? {
      WipeShrinks(s.t, k);
      rows, dying' := Holders(s.t, k).Keys, {};
    } else if req.target.value in Holders(s.t, k) {
      ReleaseDrops(s.t, k, req.target.value);
      DropOneShrinks(s.t, s1.t, k, req.target.value, dying);
      rows, dying' := {req.target.value}, dying - {req.target.value};
    } else {
      NotHeldNoRow(s.t, req.target.value, {});
      SameBooksShrinks(s.t, s1.t, k);
      rows, dying' := {}, {};
    }
  }

  lemma SameBooksShrinks(t: Table, t': Table, k: Key)
    requires SameBooks(t, t') && QueuesDistinct(t) && t'.locks.Keys == t.locks.Keys
    ensures Shrinks(t, t', k, {}, {}, {})
  {
    assert t.deadlines - {} == t.deadlines;
    assert forall w :: Waits(t', k, w) <==> Waits(t, k, w);
    assert forall x, u :: u in Holders(t', x) ==> u !in {};
  }

  // ----- release-many -----

  lemma {:induction false} ReleaseMembersNotifies(s: State, c: Uuid, ks: seq<Key>, us: map<Key, Uuid>, env: Env,
                                                  prior: iset<Uuid>)
    requires Sound(s, {}) && NewWhole(s, prior) && c in prior && c in s.composites && s.composites[c].holderUuids == us
    requires Distinct(ks)
    ensures var s' := ReleaseMembers(s, ks, us, env);
      Notifies(s, s', env.live) && Awaited(s, s') && OnlyGrants(s, s')
    decreases |ks|
  {
    if ks == [] {
      NoNews(s, s, env.live);
    } else {
      var k, rest := ks[0], ks[1..];
      if k in us && k in s.t.locks {
        var s1 := EnsureNewLockHolder(s.(t := ReleaseMember(s.t, k, us[k])), k, Some(us[k]), env);
        ReleaseMemberSound(s, c, k, env, prior);
        ReleaseMembersNotifies(s1, c, rest, us, env, prior);
        MemberThenRest(s, s1, ReleaseMembers(s1, rest, us, env), c, k, rest, env, prior);
      } else {
        ReleaseMembersNotifies(s, c, rest, us, env, prior);
      }
    }
  }

  lemma MemberThenRest(s: State, s1: State, s': State, c: Uuid, k: Key, rest: seq<Key>, env: Env, prior: iset<Uuid>)
    requires Sound(s, {}) && Sound(s1, {}) && NewWhole(s1, prior) && KeepsRecords(s, s1)
    requires c in prior && c in s.composites && k in s.composites[c].holderUuids && k in s.t.locks && Distinct(rest)
    requires var us := s.composites[c].holderUuids;
      && s1 == EnsureNewLockHolder(s.(t := ReleaseMember(s.t, k, us[k])), k, Some(us[k]), env)
      && s' == ReleaseMembers(s1, rest, us, env) && Trades(s.t, s1.t, iset{(k, us[k])}, env)
    requires Notifies(s1, s', env.live) && Awaited(s1, s') && OnlyGrants(s1, s')
    ensures Notifies(s, s', env.live) && Awaited(s, s') && OnlyGrants(s, s')
  {
    var us := s.composites[c].holderUuids;
    MemberNotifies(s, c, k, env);
    ReleaseMembersSound(s1, c, rest, us, env, prior);
    MembersOld(s, s1, c, rest, iset{(k, us[k])}, env);
    NotifiesTwice(s, s1, s', {}, {}, iset{(k, us[k])}, Members(rest, us), env, env.live);
  }

  lemma MemberNotifies(s: State, c: Uuid, k: Key, env: Env)
    requires Sound(s, {}) && c in s.composites && k in s.composites[c].holderUuids && k in s.t.locks
    ensures var u := s.composites[c].holderUuids[k];
      var s' := EnsureNewLockHolder(s.(t := ReleaseMember(s.t, k, u)), k, Some(u), env);
      Notifies(s, s', env.live) && Awaited(s, s') && OnlyGrants(s, s')
  {
    var u := s.composites[c].holderUuids[k];
    var s1 := s.(t := ReleaseMember(s.t, k, u));
    assert Member(s, c, k, u);
    ReleaseDrops(s.t, k, u);
    DropOneShrinks(s.t, s1.t, k, u, {});
    FreedNotifies(s, s1, k, {u}, {}, {}, Some(u), env);
  }

  lemma MembersOld(s: State, s1: State, c: Uuid, ks: seq<Key>, gone: iset<(Key, Uuid)>, env: Env)
    requires Registry(s) && c in s.composites && Trades(s.t, s1.t, gone, env)
    ensures GoneOld(s, s1, Members(ks, s.composites[c].holderUuids), env.live)
  {
    var us := s.composites[c].holderUuids;
    assert WellFormed(s.composites[c], s.t.minted);
    forall k, u | (k, u) in Members(ks, us) && u in Holders(s1.t, k) ensures u in Holders(s.t, k) {
      assert u.Minted? && u.n < s.t.minted;
      assert u !in Holders(s.t, k) ==> Newcomer(s.t, s1.t, k, u, env);
    }
  }

  /** Frames of grants, then the reply: released if and only if the composite was known. */
  ghost predicate ToldReleased(s: State, s': State, ws: Ws, req: ReleaseReq, env: Env, known: bool) {
    var n := if ws in env.live then |s'.out| - 1 else |s'.out|;
    && s.out <= s'.out && |s.out| <= n
    && (ws in env.live ==> s'.out[n] == ReleaseFrame(ws, req.uuid, known))
    && (forall i :: |s.out| <= i < n ==> IsGrant(s'.out[i]))
    && (!known ==> n == |s.out|)
  }

  /** A release-many is answered once and last: that it released, if and only if the composite is registered;
      all it sends before are the grants of what it freed; and the composite is registered no more. */
  lemma ReleaseAnswer(s: State, ws: Ws, req: ReleaseReq, env: Env)
    requires Sound(s, {})
    ensures var s' := ReleaseMany(s, ws, req, env);
      && ToldReleased(s, s', ws, req, env, req.lockUuid.Some? && req.lockUuid.value in s.composites)
      && (req.lockUuid.Some? ==> req.lockUuid.value !in s'.composites)
      && Notifies(s, s', env.live)
  {
    if req.lockUuid.Some? && req.lockUuid.value in s.composites {
      var c := s.composites[req.lockUuid.value];
      var s1 := ReleaseMembers(s, c.keys, c.holderUuids, env);
      ReleaseMembersNotifies(s, req.lockUuid.value, c.keys, c.holderUuids, env, Recorded(s));
      ReleaseReplies(s, s1, ws, req, env, ReleaseMany(s, ws, req, env));
    } else {
      NoNews(s, ReleaseMany(s, ws, req, env), env.live);
    }
  }

  lemma ReleaseReplies(s: State, s1: State, ws: Ws, req: ReleaseReq, env: Env, s': State)
    requires req.lockUuid.Some? && req.lockUuid.value in s.composites && Notifies(s, s1, env.live) && OnlyGrants(s, s1)
    requires s1 == ReleaseMembers(s, s.composites[req.lockUuid.value].keys,
      s.composites[req.lockUuid.value].holderUuids, env)
    requires s' == ReleaseMany(s, ws, req, env)
    ensures ToldReleased(s, s', ws, req, env, true) && Notifies(s, s', env.live)
  {
    assert s'.t == s1.t && s'.composites == s1.composites - {req.lockUuid.value};
    assert s'.out == s1.out || s'.out == s1.out + [ReleaseFrame(ws, req.uuid, true)];
    ThenReply(s, s1, s', env.live);
  }

  /** A reply, and an old composite taken off the registry, change nobody's news. */
  lemma ThenReply(s: State, s1: State, s': State, hear: set<Ws>)
    requires Notifies(s, s1, hear) && s'.t == s1.t && s1.out <= s'.out
    requires forall i :: |s1.out| <= i < |s'.out| ==> !IsGrant(s'.out[i])
    requires forall c :: NewComposite(s, s', c) <==> NewComposite(s, s1, c)
    requires forall c :: c in s'.composites ==> c in s1.composites && s'.composites[c] == s1.composites[c]
    ensures Notifies(s, s', hear)
  {
    forall k, u | NewHolder(s, s', k, u) && Holders(s'.t, k)[u].ws in hear
      ensures exists i: nat :: HolderNotice(s, s', Holders(s'.t, k)[u].ws, k, u, Holders(s'.t, k)[u].token, i)
    {
      assert NewHolder(s, s1, k, u);
      var h := Holders(s'.t, k)[u];
      var i: nat :| HolderNotice(s, s1, h.ws, k, u, h.token, i);
      assert HolderNotice(s, s', h.ws, k, u, h.token, i);
    }
    forall k, w | Waits(s.t, k, w) && w.composite.Some? && w.ws in hear
      ensures NewComposite(s, s', w.composite.value.lockUuid) ==> exists i: nat :: CompositeNotice(s, s', w, i)
    {
      if NewComposite(s, s', w.composite.value.lockUuid) {
        assert NewComposite(s, s1, w.composite.value.lockUuid);
        var i: nat :| CompositeNotice(s, s1, w, i);
        assert CompositeNotice(s, s', w, i);
      }
    }
  }

  // ----- tickTtl -----

  lemma EvictNotifies(s: State, u: Uuid, k: Key, env: Env, prior: iset<Uuid>)
    requires Sound(s, {}) && DueHolder(s.t, u, k, prior)
    ensures var s' := Evict(s, u, k, env);
      Notifies(s, s', env.live) && Awaited(s, s') && OnlyGrants(s, s')
  {
    var s1 := s.(t := TimeOut(DropRow(s.t, u), k, u));
    TimeOutDrops(s.t, k, u);
    DropOneShrinks(s.t, s1.t, k, u, {});
    FreedNotifies(s, s1, k, {u}, {}, {}, Some(u), env);
  }

  lemma {:induction false} SweepNotifies(s: State, expired: seq<(Uuid, Key)>, env: Env, prior: iset<Uuid>)
    requires Sound(s, {}) && NewWhole(s, prior) && Due(s.t, expired, prior)
    ensures var s' := Sweep(s, expired, env);
      Notifies(s, s', env.live) && Awaited(s, s') && OnlyGrants(s, s')
    decreases |expired|
  {
    if expired == [] {
      NoNews(s, s, env.live);
    } else {
      var (u, k) := expired[0];
      var s1, rest := Evict(s, u, k, env), expired[1..];
      assert expired[0] in expired;
      EvictNotifies(s, u, k, env, prior);
      EvictSound(s, u, k, env, prior);
      DueStill(s.t, s1.t, expired, env, prior);
      SweepNotifies(s1, rest, env, prior);
      SweepSound(s1, rest, env, prior);
      EvictedOld(s, s1, expired, prior, env.live);
      NotifiesTwice(s, s1, Sweep(s1, rest, env), {}, {}, iset{(k, u)}, Evicted(rest), env, env.live);
    }
  }

  lemma EvictedOld(s: State, s1: State, expired: seq<(Uuid, Key)>, prior: iset<Uuid>, hear: set<Ws>)
    requires expired != [] && Due(s.t, expired, prior)
    ensures GoneOld(s, s1, Evicted(expired[1..]), hear)
  {
    forall k, u | (k, u) in Evicted(expired[1..]) ensures u in Holders(s.t, k) {
      var e :| e in expired[1..] && (k, u) == (e.1, e.0);
      assert e in expired && DueHolder(s.t, e.0, e.1, prior);
    }
  }

  // ----- A socket closes -----

  lemma {:induction false} UnlockOwnedNotifies(s: State, k: Key, us: seq<Uuid>, ws: Ws, env: Env, dying: set<Uuid>,
                                               prior: iset<Uuid>)
    requires Sound(s, dying) && NewWhole(s, prior) && Distinct(us) && OwnOld(s.t, k, us, ws, prior)
    requires forall u :: u in dying ==> u in us
    ensures var s' := UnlockOwned(s, k, us, ws, env);
      Notifies(s, s', env.live - {ws}) && Awaited(s, s') && OnlyGrants(s, s')
    decreases |us|
  {
    var hear := env.live - {ws};
    if us == [] {
      NoNews(s, s, hear);
    } else {
      var u, rest := us[0], us[1..];
      var req := UnlockReq(k, None, Some(u), true);
      var s1 := Unlock(s, Some(ws), req, env);
      var s' := UnlockOwned(s1, k, rest, ws, env);
      assert DueHolder(s.t, u, k, prior);
      UnlocksOne(s.t, k, u, prior);
      UnlockNotifies(s, Some(ws), req, env, dying);
      NotifiesFewer(s, s1, env.live, hear);
      UnlockOne(s, k, u, ws, env, dying, prior);
      OwnStill(s.t, s1.t, k, us, ws, env, dying, prior);
      UnlockOwnedNotifies(s1, k, rest, ws, env, dying - {u}, prior);
      UnlockOwnedSound(s1, k, rest, ws, env, dying - {u}, prior);
      OwnDeaf(s, s1, k, rest, ws, prior, env);
      NotifiesTwice(s, s1, s', dying, dying - {u}, iset{(k, u)}, At(k, rest), env, hear);
    }
  }

  lemma OwnDeaf(s: State, s1: State, k: Key, us: seq<Uuid>, ws: Ws, prior: iset<Uuid>, env: Env)
    requires OwnOld(s1.t, k, us, ws, prior)
    ensures GoneOld(s, s1, At(k, us), env.live - {ws})
  {}

  lemma ScrubKeyNotifies(s: State, k: Key, uuids: set<Uuid>, us: seq<Uuid>, ws: Ws, env: Env)
    requires k in s.t.locks && Sound(s, {}) && Lists(us, Owned(s.t, k, ws))
    ensures var s' := ScrubKey(s, k, uuids, us, ws, env);
      Notifies(s, s', env.live - {ws}) && Awaited(s, s') && OnlyGrants(s, s')
  {
    var s1, hear := s.(t := ScrubQueue(s.t, k, uuids, ws)), env.live - {ws};
    var s' := ScrubKey(s, k, uuids, us, ws, env);
    ScrubbedSound(s, k, uuids, ws, env);
    NoNews(s, s1, hear);
    OwnRecorded(s, s1, k, us, ws);
    UnlockOwnedNotifies(s1, k, us, ws, env, Owned(s.t, k, ws), Recorded(s));
    UnlockOwnedSound(s1, k, us, ws, env, Owned(s.t, k, ws), Recorded(s));
    OwnDeaf(s, s1, k, us, ws, Recorded(s), env);
    NotifiesTwice(s, s1, s', {}, Owned(s.t, k, ws), iset{}, At(k, us), env, hear);
  }

  lemma {:induction false} ScrubKeysNotifies(s: State, visits: Visits, seen: set<Key>, uuids: set<Uuid>, ws: Ws,
                                             env: Env)
    requires Sound(s, {}) && FullVisit(s, visits, seen, uuids, ws, env)
    ensures var s' := ScrubKeys(s, visits, uuids, ws, env);
      Notifies(s, s', env.live - {ws}) && Awaited(s, s') && OnlyGrants(s, s')
    decreases |visits|
  {
    var hear := env.live - {ws};
    if visits == [] {
      NoNews(s, s, hear);
    } else {
      var (k, us) := visits[0];
      var s1, rest := ScrubKey(s, k, uuids, us, ws, env), visits[1..];
      ScrubKeyNotifies(s, k, uuids, us, ws, env);
      ScrubKeySound(s, k, uuids, us, ws, env);
      ScrubKeysNotifies(s1, rest, seen + {k}, uuids, ws, env);
      ScrubKeysSound(s1, rest, seen + {k}, uuids, ws, env);
      NotifiesTwice(s, s1, ScrubKeys(s1, rest, uuids, ws, env), {}, {}, At(k, us), OwnedOutside(s1.t, seen + {k}, ws),
        env, hear);
    }
  }

  // ----- lock and acquire-many -----

  lemma LockNotifies(s: State, ws: Ws, req: LockReq, env: Env)
    requires Sound(s, {}) && NoLostWakeup(s.t) && LockFresh(s.t, req)
    ensures Notifies(s, Lock(s, ws, req, env), env.live)
  {
    var s' := Lock(s, ws, req, env);
    LockSound(s, ws, req, env, Recorded(s));
    LockRecords(s, ws, req, env);
    if BadMax(req.max) {
      BadMaxAnswer(s, ws, req, env);
      NoNews(s, s', env.live);
    } else {
      LockAnswer(s, ws, req, env);
      if |Holders(s.t, req.key)| < JudgedBy(s.t, req) {
        GrantedNotifies(s, s', ws, req, env);
      } else {
        RefusedNotifies(s, s', ws, req, env);
      }
    }
  }

  lemma GrantedNotifies(s: State, s': State, ws: Ws, req: LockReq, env: Env)
    requires ToldGranted(s, s', ws, req, env) && s'.composites == s.composites && req.uuid !in Holders(s.t, req.key)
    requires forall k, u :: u in Holders(s'.t, k) && u !in Holders(s.t, k) ==> k == req.key && u == req.uuid
    ensures Notifies(s, s', env.live)
  {
    if ws in env.live {
      assert HolderNotice(s, s', ws, req.key, req.uuid, Holders(s'.t, req.key)[req.uuid].token, |s.out|);
    }
  }

  lemma RefusedNotifies(s: State, s': State, ws: Ws, req: LockReq, env: Env)
    requires ToldRefused(s, s', ws, req, env) && s'.composites == s.composites
    requires forall k, u :: u in Holders(s'.t, k) && u !in Holders(s.t, k) ==> k == req.key && u == req.uuid
    ensures Notifies(s, s', env.live)
  {
    assert forall k, u :: u in Holders(s'.t, k) ==> u in Holders(s.t, k);
    NoNews(s, s', env.live);
  }

  lemma AcquireNotifies(s: State, ws: Ws, req: ManyReq, env: Env)
    requires Sound(s, {})
    ensures Notifies(s, AcquireMany(s, ws, req, env), env.live)
  {
    var s' := AcquireMany(s, ws, req, env);
    if !GoodKeys(req.keys) {
      BadKeysAnswer(s, ws, req, env);
      NoNews(s, s', env.live);
    } else {
      var ks, i := AcquireAnswer(s, ws, req, env);
      AcquireManySound(s, ws, req, env, Recorded(s));
      AskedNotifies(s, s', ws, req, env, ks, i);
    }
  }

  lemma AskedNotifies(s: State, s': State, ws: Ws, req: ManyReq, env: Env, ks: KeyList, i: nat)
    requires Sound(s, {}) && Sound(s', {}) && KeepsRecords(s, s') && AddsMinted(s.t, s'.t, s.t.minted)
    requires if forall k :: k in ks ==> !Full(s.t, k)
      then ToldAll(s, s', ws, req, env, Minted(s.t.minted), ks)
      else ToldStopped(s, s', ws, req, env, Minted(s.t.minted), ks, i)
    ensures Notifies(s, s', env.live)
  {
    if forall k :: k in ks ==> !Full(s.t, k) {
      AllNotifies(s, s', ws, req, env, Minted(s.t.minted), ks);
    } else {
      NoNews(s, s', env.live);
    }
  }

  lemma AllNotifies(s: State, s': State, ws: Ws, req: ManyReq, env: Env, c: Uuid, ks: KeyList)
    requires Sound(s, {}) && Sound(s', {}) && AddsMinted(s.t, s'.t, s.t.minted)
    requires ToldAll(s, s', ws, req, env, c, ks) && c == Minted(s.t.minted)
    ensures Notifies(s, s', env.live)
  {
    TokensTold(s, s', ws, req, env, c, ks);
    forall k, u | u in Holders(s'.t, k) && u !in Holders(s.t, k) ensures Holders(s'.t, k)[u].composite.Some? {
      assert TagAgrees(s', k, u);
    }
    assert HoldersTold(s, s', env.live);
    NobodyAwaits(s, c);
  }

  lemma NobodyAwaits(s: State, c: Uuid)
    requires WaitsOnce(s) && c == Minted(s.t.minted)
    ensures forall k, w :: Waits(s.t, k, w) && w.composite.Some? ==> w.composite.value.lockUuid != c
  {}

  lemma TokensTold(s: State, s': State, ws: Ws, req: ManyReq, env: Env, c: Uuid, ks: KeyList)
    requires Registry(s') && ToldAll(s, s', ws, req, env, c, ks)
    ensures TokensHeld(s, s')
  {
    forall k, u | u in Holders(s'.t, k) && Holders(s'.t, k)[u].composite == Some(c)
      ensures k in s'.composites[c].tokens && s'.composites[c].tokens[k] == Holders(s'.t, k)[u].token
    {
      assert TagAgrees(s', k, u) && WellFormed(s'.composites[c], s'.t.minted);
      assert HoldsMember(s, s', ws, req, env, c, k);
    }
  }

  // ----- Every step -----

  /** The sockets whose frames count: those that are written to, but for one that closes. */
  function Hearers(e: Event, env: Env): set<Ws> {
    if e.CloseEvent? then env.live - {e.ws} else env.live
  }

  lemma TickNotifies(s: State, now: int, expired: seq<(Uuid, Key)>, env: Env)
    requires Sound(s, {}) && ExpiredRows(s.t, now, expired)
    ensures var s' := Sweep(s, expired, env); Notifies(s, s', env.live) && OnlyGrants(s, s')
  {
    assert NewWhole(s, Recorded(s));
    forall x | x in expired ensures DueHolder(s.t, x.0, x.1, Recorded(s)) {
      assert (x.0, x.1) in expired;
      assert x.0 in Holders(s.t, s.t.deadlines[x.0].key);
      assert TagAgrees(s, x.1, x.0);
    }
    SweepNotifies(s, expired, env, Recorded(s));
  }

  lemma CloseNotifies(s: State, ws: Ws, visits: Visits, env: Env)
    requires Sound(s, {}) && ws !in s.closed
    requires FullVisit(Unplugged(s, ws), visits, {}, Leaving(s, ws), ws, env)
    ensures var s' := Disconnect(s, ws, visits, env); Notifies(s, s', env.live - {ws}) && OnlyGrants(s, s')
  {
    var s1, s' := Unplugged(s, ws), Disconnect(s, ws, visits, env);
    ClosedSound(s, ws, visits, env);
    ScrubKeysNotifies(s1, visits, {}, Leaving(s, ws), ws, env);
    UnpluggedNotifies(s, s1, s', env.live - {ws});
  }

  lemma UnpluggedNotifies(s: State, s1: State, s': State, hear: set<Ws>)
    requires Notifies(s1, s', hear) && OnlyGrants(s1, s')
    requires s1.t == s.t && s1.composites == s.composites && s1.out == s.out
    ensures Notifies(s, s', hear) && OnlyGrants(s, s')
  {
    forall k, u | NewHolder(s, s', k, u) && Holders(s'.t, k)[u].ws in hear
      ensures exists i: nat :: HolderNotice(s, s', Holders(s'.t, k)[u].ws, k, u, Holders(s'.t, k)[u].token, i)
    {
      assert NewHolder(s1, s', k, u);
      var h := Holders(s'.t, k)[u];
      var i: nat :| HolderNotice(s1, s', h.ws, k, u, h.token, i);
      assert HolderNotice(s, s', h.ws, k, u, h.token, i);
    }
    forall k, w | Waits(s.t, k, w) && w.composite.Some? && w.ws in hear
      ensures NewComposite(s, s', w.composite.value.lockUuid) ==> exists i: nat :: CompositeNotice(s, s', w, i)
    {
      if NewComposite(s, s', w.composite.value.lockUuid) {
        assert NewComposite(s1, s', w.composite.value.lockUuid);
        var i: nat :| CompositeNotice(s1, s', w, i);
        assert CompositeNotice(s, s', w, i);
      }
    }
  }

  /** Whatever the step: every new single-key holder of a socket that hears is told so exactly once, with its
      own token; every waiting composite that is granted is announced exactly once, to who asked for it, with
      the tokens its holders have; and no socket that hears is told so of anything else. */
  lemma StepNotifies(s: State, e: Event, env: Env)
    requires Sound(s, {}) && NoLostWakeup(s.t) && Valid(s, e, env)
    ensures Notifies(s, Step(s, e, env), Hearers(e, env))
    ensures e.TickEvent? || e.CloseEvent? ==> OnlyGrants(s, Step(s, e, env))
    ensures e.GiveUpEvent? ==> Step(s, e, env).out == s.out
  {
    if Dropped(s, e) {
      NoNews(s, s, Hearers(e, env));
    } else {
      match e {
        case LockEvent(ws, req) => LockNotifies(s, ws, req, env);
        case UnlockEvent(from, req) => UnlockNotifies(s, from, req, env, {});
        case AcquireEvent(ws, req) => AcquireNotifies(s, ws, req, env);
        case ReleaseEvent(ws, req) => ReleaseAnswer(s, ws, req, env);
        case TickEvent(now, expired) => TickNotifies(s, now, expired, env);
        case CloseEvent(ws, visits) => CloseNotifies(s, ws, visits, env);
        case GiveUpEvent(_, k, u) =>
          GiveUpSound(s, k, u, env, Recorded(s));
          NoNews(s, GiveUp(s, k, u), env.live);
      }
    }
  }
}

/** What holds of every step and every run of the broker: the books and the registry agree, and
    a step takes away exactly the holders it names. */
module Safety {
  import opened BrokerTypes
  import opened BrokerSteps
  import opened Events
  import opened Invariants
  import opened Bookkeeping
  import opened Registries
  import opened Survival
  import opened Releases
  import opened Requests
  import opened Disconnects

  /** What the broker's surroundings owe it: request uuids are not reused for a second hold while the
      first lasts, an unlock taken for a late one is one, and a sweep or a cleanup walks its map once. */
  ghost predicate Valid(s: State, e: Event, env: Env) {
    Dropped(s, e) ||
    match e
    case LockEvent(_, req) => LockFresh(s.t, req)
    case UnlockEvent(_, req) => NamesOwnKey(s.t, req)
    case AcquireEvent(_, _) => true
    case ReleaseEvent(_, _) => true
    case TickEvent(now, expired) => ExpiredRows(s.t, now, expired)
    case CloseEvent(ws, visits) => FullVisit(Unplugged(s, ws), visits, {}, Leaving(s, ws), ws, env)
    case GiveUpEvent(_, _, _) => true
  }

  /** The holders a step takes away. */
  ghost predicate Removes(s: State, e: Event, k: Key, u: Uuid) {
    !Dropped(s, e) &&
    match e
    case LockEvent(_, _) => false
    case UnlockEvent(_, req) => Unlocks(req, k, u)
    case AcquireEvent(_, _) => false
    case ReleaseEvent(_, req) => req.lockUuid.Some? && Member(s, req.lockUuid.value, k, u)
    case TickEvent(now, _) =>
      u in Holders(s.t, k) && Holders(s.t, k)[u].expiresAt.Finite? && Holders(s.t, k)[u].expiresAt.n <= now
    case CloseEvent(ws, _) => u in Owned(s.t, k, ws)
    case GiveUpEvent(_, _, _) => false
  }

  ghost function Removed(s: State, e: Event): iset<(Key, Uuid)> {
    iset k, u | u in Holders(s.t, k) && Removes(s, e, k, u) :: (k, u)
  }

  /** The steps other than `lock` and `acquire-many` only trade: see `Trades`. */
  predicate Asks(s: State, e: Event) {
    !Dropped(s, e) && (e.LockEvent? || e.AcquireEvent?)
  }

  /** The step that ends composite `c`. */
  predicate Ends(s: State, e: Event, c: Uuid) {
    !Dropped(s, e) && e.ReleaseEvent? && e.release.lockUuid == Some(c)
  }

  /** The composites registered so far, and those a closing socket still waits for. */
  ghost function Prior(s: State, e: Event): iset<Uuid> {
    iset c | c in s.composites || (e.CloseEvent? && Queued(s.t, e.ws, c))
  }

  /** A holder the broker itself named never comes back. */
  ghost predicate NoRevival(t: Table, t': Table) {
    forall k, u :: u in Holders(t', k) && u !in Holders(t, k) && u.Minted? ==> t.minted <= u.n
  }

  /** What a step from `s` to `s'` keeps. */
  ghost predicate Keeps(s: State, e: Event, s': State) {
    && Sound(s', {}) && NewWhole(s', Prior(s, e)) && NoRevival(s.t, s'.t)
    && (forall c :: c in s.composites ==>
         if Ends(s, e, c) then c !in s'.composites else c in s'.composites && s'.composites[c] == s.composites[c])
    && (forall k, u :: u in Holders(s.t, k) ==>
         if Removes(s, e, k, u) then u !in Holders(s'.t, k) else SameHolder(s.t, s'.t, k, u))
  }

  // ----- The releasing steps -----

  /** A step that trades exactly what `Removes` says, and keeps every record. */
  lemma Traded(s: State, e: Event, env: Env, s': State, gone: iset<(Key, Uuid)>)
    requires Sound(s', {}) && NewWhole(s', Prior(s, e)) && Trades(s.t, s'.t, gone, env)
    requires forall c :: c in s.composites ==>
      if Ends(s, e, c) then c !in s'.composites else c in s'.composites && s'.composites[c] == s.composites[c]
    requires forall k, u :: u in Holders(s.t, k) ==> ((k, u) in gone <==> Removes(s, e, k, u))
    ensures Keeps(s, e, s') && Trades(s.t, s'.t, Removed(s, e), env)
  {
    TradesMore(s.t, s'.t, gone, Removed(s, e), env);
    forall k, u | u in Holders(s.t, k)
      ensures if Removes(s, e, k, u) then u !in Holders(s'.t, k) else SameHolder(s.t, s'.t, k, u)
    {
      assert (k, u) in gone <==> Removes(s, e, k, u);
    }
    forall k, u | u in Holders(s'.t, k) && u !in Holders(s.t, k) && u.Minted? ensures s.t.minted <= u.n {
      assert Newcomer(s.t, s'.t, k, u, env);
    }
  }

  lemma TradesNothing(t: Table, env: Env)
    ensures Trades(t, t, iset{}, env)
  {}

  lemma TagsPrior(s: State, e: Event, k: Key, u: Uuid)
    requires Registry(s) && u in Holders(s.t, k)
    ensures Holders(s.t, k)[u].composite.None? || Holders(s.t, k)[u].composite.value in Prior(s, e)
  {
    assert TagAgrees(s, k, u);
  }

  lemma UnlocksRecorded(s: State, req: UnlockReq, prior: iset<Uuid>)
    requires Registry(s) && forall c :: c in s.composites ==> c in prior
    ensures UnlocksPrior(s.t, req, prior)
  {
    forall u | u in Holders(s.t, req.key)
      ensures Holders(s.t, req.key)[u].composite.None? || Holders(s.t, req.key)[u].composite.value in prior
    {
      assert TagAgrees(s, req.key, u);
    }
  }

  lemma UnlockKeeps(s: State, from: Option<Ws>, req: UnlockReq, env: Env)
    requires Sound(s, {}) && NamesOwnKey(s.t, req) && !Dropped(s, UnlockEvent(from, req))
    ensures var (e, s') := (UnlockEvent(from, req), Unlock(s, from, req, env));
      Keeps(s, e, s') && Trades(s.t, s'.t, Removed(s, e), env)
  {
    var e, prior := UnlockEvent(from, req), Recorded(s);
    UnlocksRecorded(s, req, prior);
    UnlockSound(s, from, req, env, {}, prior);
    UnlockTraded(s, e, env, Unlock(s, from, req, env), prior);
  }

  lemma UnlockTraded(s: State, e: Event, env: Env, s': State, prior: iset<Uuid>)
    requires e.UnlockEvent? && !Dropped(s, e) && prior == Recorded(s)
    requires Sound(s', {}) && NewWhole(s', prior)
    requires KeepsRecords(s, s') && Trades(s.t, s'.t, Unlocked(s.t, e.unlock), env)
    ensures Keeps(s, e, s') && Trades(s.t, s'.t, Removed(s, e), env)
  {
    Traded(s, e, env, s', Unlocked(s.t, e.unlock));
  }

  /** Taking a composite none of whose members is live off the registry. */
  lemma EndComposite(s: State, s': State, c: Uuid, prior: iset<Uuid>)
    requires Sound(s, {}) && NewWhole(s, prior)
    requires s'.t == s.t && s'.composites == s.composites - {c}
    requires forall k, u :: Member(s, c, k, u) ==> u !in Holders(s.t, k)
    ensures Sound(s', {}) && NewWhole(s', prior)
  {
    assert forall d, k, u :: Member(s', d, k, u) <==> Member(s, d, k, u) && d != c;
    forall k, u | u in Holders(s'.t, k) ensures TagAgrees(s', k, u) { assert TagAgrees(s, k, u); }
    forall d, k, u | d in s'.composites && d !in prior && Member(s', d, k, u) ensures u in Holders(s'.t, k) {
      assert Whole(s, d) && Member(s, d, k, u);
    }
    forall d | d in s'.composites ensures WellFormed(s'.composites[d], s'.t.minted) { assert d in s.composites; }
  }

  lemma ReleaseKeeps(s: State, ws: Ws, req: ReleaseReq, env: Env)
    requires Sound(s, {}) && NewWhole(s, Prior(s, ReleaseEvent(ws, req))) && !Dropped(s, ReleaseEvent(ws, req))
    ensures var (e, s') := (ReleaseEvent(ws, req), ReleaseMany(s, ws, req, env));
      Keeps(s, e, s') && Trades(s.t, s'.t, Removed(s, e), env)
  {
    var e, s' := ReleaseEvent(ws, req), ReleaseMany(s, ws, req, env);
    if req.lockUuid.None? || req.lockUuid.value !in s.composites {
      NoSuchComposite(s, e, env, s');
    } else {
      var rec := s.composites[req.lockUuid.value];
      ReleaseEnds(s, req.lockUuid.value, ReleaseMembers(s, rec.keys, rec.holderUuids, env), s', env, Prior(s, e));
      ReleaseTraded(s, e, env, s', req.lockUuid.value);
    }
  }

  lemma NoSuchComposite(s: State, e: Event, env: Env, s': State)
    requires Sound(s, {}) && NewWhole(s, Prior(s, e)) && s'.t == s.t && s'.composites == s.composites
    requires e.ReleaseEvent? && (e.release.lockUuid.None? || e.release.lockUuid.value !in s.composites)
    ensures Keeps(s, e, s') && Trades(s.t, s'.t, Removed(s, e), env)
  {
    SameBooksSound(s, s', {}, Prior(s, e), env);
    TradesNothing(s.t, env);
    Traded(s, e, env, s', iset{});
  }

  lemma ReleaseTraded(s: State, e: Event, env: Env, s': State, c: Uuid)
    requires e.ReleaseEvent? && !Dropped(s, e) && e.release.lockUuid == Some(c) && c in s.composites
    requires Sound(s', {}) && NewWhole(s', Prior(s, e)) && c !in s'.composites
    requires forall d :: d in s.composites && d != c ==> d in s'.composites && s'.composites[d] == s.composites[d]
    requires Trades(s.t, s'.t, Members(s.composites[c].keys, s.composites[c].holderUuids), env)
    requires forall k, u :: u in Holders(s.t, k) ==>
      ((k, u) in Members(s.composites[c].keys, s.composites[c].holderUuids) <==> Member(s, c, k, u))
    ensures Keeps(s, e, s') && Trades(s.t, s'.t, Removed(s, e), env)
  {
    Traded(s, e, env, s', Members(s.composites[c].keys, s.composites[c].holderUuids));
  }

  lemma ReleaseEnds(s: State, c: Uuid, s1: State, s': State, env: Env, prior: iset<Uuid>)
    requires Sound(s, {}) && NewWhole(s, prior) && c in s.composites && c in prior
    requires s1 == ReleaseMembers(s, s.composites[c].keys, s.composites[c].holderUuids, env)
    requires s'.t == s1.t && s'.composites == s1.composites - {c}
    ensures Sound(s', {}) && NewWhole(s', prior) && KeepsRecords(s, s1)
    ensures Trades(s.t, s'.t, Members(s.composites[c].keys, s.composites[c].holderUuids), env)
    ensures forall k, u :: u in Holders(s.t, k) ==>
      ((k, u) in Members(s.composites[c].keys, s.composites[c].holderUuids) <==> Member(s, c, k, u))
  {
    var rec := s.composites[c];
    ReleaseMembersSound(s, c, rec.keys, rec.holderUuids, env, prior);
    MembersGone(s, s1, c, env);
    EndComposite(s1, s', c, prior);
  }

  lemma MembersGone(s: State, s1: State, c: Uuid, env: Env)
    requires Sound(s, {}) && c in s.composites && KeepsRecords(s, s1)
    requires Trades(s.t, s1.t, Members(s.composites[c].keys, s.composites[c].holderUuids), env)
    ensures forall k, u :: Member(s1, c, k, u) ==> u !in Holders(s1.t, k)
    ensures forall k, u :: u in Holders(s.t, k) ==>
      ((k, u) in Members(s.composites[c].keys, s.composites[c].holderUuids) <==> Member(s, c, k, u))
  {
    var rec := s.composites[c];
    assert WellFormed(rec, s.t.minted);
    forall k, u | Member(s1, c, k, u) ensures u !in Holders(s1.t, k) {
      assert (k, u) in Members(rec.keys, rec.holderUuids);
      assert u.Minted? && u.n < s.t.minted;
      assert u in Holders(s1.t, k) && u !in Holders(s.t, k) ==> Newcomer(s.t, s1.t, k, u, env);
    }
  }

  lemma TickKeeps(s: State, now: int, expired: seq<(Uuid, Key)>, env: Env)
    requires Sound(s, {}) && NewWhole(s, Prior(s, TickEvent(now, expired))) && ExpiredRows(s.t, now, expired)
    ensures var (e, s') := (TickEvent(now, expired), Sweep(s, expired, env));
      Keeps(s, e, s') && Trades(s.t, s'.t, Removed(s, e), env)
    ensures forall u, k :: (u, k) in expired <==> u in Holders(s.t, k) && Removes(s, TickEvent(now, expired), k, u)
  {
    var e := TickEvent(now, expired);
    forall u, k ensures (u, k) in expired <==> u in Holders(s.t, k) && Removes(s, e, k, u) {
      if u in Holders(s.t, k) { assert RowAgrees(s.t, k, u, {}); }
      if (u, k) in expired { assert u in Holders(s.t, s.t.deadlines[u].key); }
    }
    forall x | x in expired ensures DueHolder(s.t, x.0, x.1, Prior(s, e)) {
      assert (x.0, x.1) in expired;
      TagsPrior(s, e, x.1, x.0);
    }
    SweepSound(s, expired, env, Prior(s, e));
    assert forall k, u :: (k, u) in Evicted(expired) <==> (u, k) in expired;
    Traded(s, e, env, Sweep(s, expired, env), Evicted(expired));
  }

  lemma CloseKeeps(s: State, ws: Ws, visits: Visits, env: Env)
    requires Sound(s, {}) && NewWhole(s, Prior(s, CloseEvent(ws, visits))) && ws !in s.closed
    requires FullVisit(Unplugged(s, ws), visits, {}, Leaving(s, ws), ws, env)
    ensures var (e, s') := (CloseEvent(ws, visits), Disconnect(s, ws, visits, env));
      Keeps(s, e, s') && Trades(s.t, s'.t, Removed(s, e), env)
  {
    var e, s' := CloseEvent(ws, visits), Disconnect(s, ws, visits, env);
    ClosedSound(s, ws, visits, env);
    ScrubKeysSound(Unplugged(s, ws), visits, {}, Leaving(s, ws), ws, env);
    forall c | c in s'.composites && c !in Prior(s, e) ensures Whole(s', c) { ClosedFate(s, ws, visits, env, c); }
    Traded(s, e, env, s', OwnedOutside(s.t, {}, ws));
  }

  lemma ClosedSound(s: State, ws: Ws, visits: Visits, env: Env)
    requires Sound(s, {}) && ws !in s.closed
    ensures Sound(Unplugged(s, ws), {}) && Unplugged(s, ws).t == s.t && Unplugged(s, ws).composites == s.composites
    ensures Disconnect(s, ws, visits, env) == ScrubKeys(Unplugged(s, ws), visits, Leaving(s, ws), ws, env)
  {
    SameBooksSound(s, Unplugged(s, ws), {}, Recorded(s), env);
  }

  /** The keys visited by the time a close registers composite `c`. */
  ghost function VisitedBy(s: State, ws: Ws, visits: Visits, env: Env, c: Uuid): set<Key> {
    SeenBy(Unplugged(s, ws), visits, {}, Leaving(s, ws), ws, env, c)
  }

  lemma ClosedFate(s: State, ws: Ws, visits: Visits, env: Env, c: Uuid)
    requires Sound(s, {}) && ws !in s.closed && FullVisit(Unplugged(s, ws), visits, {}, Leaving(s, ws), ws, env)
    requires c in Disconnect(s, ws, visits, env).composites && c !in s.composites
    ensures Fate(s, Disconnect(s, ws, visits, env), VisitedBy(s, ws, visits, env, c), ws, c)
  {
    ClosedSound(s, ws, visits, env);
    GrantedInClose(Unplugged(s, ws), visits, {}, Leaving(s, ws), ws, env, c);
  }

  lemma GiveUpKeeps(s: State, ws: Ws, k: Key, u: Uuid, env: Env)
    requires Sound(s, {}) && NewWhole(s, Prior(s, GiveUpEvent(ws, k, u)))
    ensures var (e, s') := (GiveUpEvent(ws, k, u), GiveUp(s, k, u));
      Keeps(s, e, s') && Trades(s.t, s'.t, Removed(s, e), env)
  {
    var e, s' := GiveUpEvent(ws, k, u), GiveUp(s, k, u);
    GiveUpSound(s, k, u, env, Prior(s, e));
    forall x, v | v in Holders(s.t, x) ensures SameHolder(s.t, s'.t, x, v) {}
    forall x, w, v | InLine(s.t, x, w, v) && Waits(s'.t, x, w) && Waits(s'.t, x, v) ensures InLine(s'.t, x, w, v) {
      if x == k { RemoveAllOrdered(Queue(s.t, k), {u}, w, v); }
    }
    assert Trades(s.t, s'.t, iset{}, env);
    Traded(s, e, env, s', iset{});
  }

  lemma AskKeeps(s: State, e: Event, env: Env)
    requires Sound(s, {}) && NoLostWakeup(s.t) && Valid(s, e, env) && Asks(s, e)
    ensures Keeps(s, e, Step(s, e, env)) && Stays(s.t, Step(s, e, env).t)
  {
    var prior, s' := Prior(s, e), Step(s, e, env);
    assert NewWhole(s, prior);
    if e.LockEvent? { LockSound(s, e.ws, e.lock, env, prior); } else { AcquireManySound(s, e.ws, e.many, env, prior); }
    forall k, u | u in Holders(s.t, k)
      ensures if Removes(s, e, k, u) then u !in Holders(s'.t, k) else SameHolder(s.t, s'.t, k, u)
    {}
  }

  // ----- Every step -----

  /** Every step keeps the books and the registry, removes exactly the holders it names, leaves
      every other holder as it is, and registers only whole composites. */
  lemma StepKeeps(s: State, e: Event, env: Env)
    requires Sound(s, {}) && NoLostWakeup(s.t) && Valid(s, e, env)
    ensures Keeps(s, e, Step(s, e, env))
    ensures !Asks(s, e) ==> Trades(s.t, Step(s, e, env).t, Removed(s, e), env)
  {
    var prior := Prior(s, e);
    assert NewWhole(s, prior);
    if Dropped(s, e) {
      TradesNothing(s.t, env);
      Traded(s, e, env, s, iset{});
    } else {
      match e {
        case LockEvent(_, _) => AskKeeps(s, e, env);
        case UnlockEvent(from, req) => UnlockKeeps(s, from, req, env);
        case AcquireEvent(_, _) => AskKeeps(s, e, env);
        case ReleaseEvent(ws, req) => ReleaseKeeps(s, ws, req, env);
        case TickEvent(now, expired) => TickKeeps(s, now, expired, env);
        case CloseEvent(ws, visits) => CloseKeeps(s, ws, visits, env);
        case GiveUpEvent(ws, k, u) => GiveUpKeeps(s, ws, k, u, env);
      }
    }
  }
}

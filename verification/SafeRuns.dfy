/** Whole runs: the books, the registry, all-or-none and no-lost-wakeup together; exact sweeps;
    clean disconnects. */
module SafeRuns {
  import opened BrokerTypes
  import opened BrokerSpec
  import opened BrokerSteps
  import opened Events
  import opened Records
  import opened Invariants
  import opened LostWakeups
  import opened Bookkeeping
  import opened Registries
  import opened Survival
  import opened Requests
  import opened Disconnects
  import opened Safety
  import opened Composites

  // ----- One deadline per composite -----

  /** The live members of a composite expire together. */
  ghost predicate OneDeadline(s: State) {
    forall c, k, u, x, v :: Live(s, c, k, u) && Live(s, c, x, v) ==>
      Holders(s.t, k)[u].expiresAt == Holders(s.t, x)[v].expiresAt
  }

  /** The wall clock does not move within a step. */
  ghost predicate Steady(env: Env) {
    forall u, v :: env.clock(u) == env.clock(v)
  }

  ghost predicate SameRecords(s: State, s': State) {
    forall c :: c in s.composites && c in s'.composites ==> s'.composites[c] == s.composites[c]
  }

  /** A live member of an old composite was already there, as it is. */
  lemma OldMember(s: State, s': State, c: Uuid, k: Key, u: Uuid)
    requires Sound(s, {}) && SameRecords(s, s') && NoRevival(s.t, s'.t) && c in s.composites && Live(s', c, k, u)
    ensures Live(s, c, k, u)
  {
    assert Member(s, c, k, u) && WellFormed(s.composites[c], s.t.minted);
  }

  /** A live member of a new composite is a newcomer. */
  lemma NewMember(s: State, s': State, gone: iset<(Key, Uuid)>, env: Env, c: Uuid, k: Key, u: Uuid)
    requires Sound(s, {}) && Sound(s', {}) && Trades(s.t, s'.t, gone, env) && c !in s.composites && Live(s', c, k, u)
    ensures u !in Holders(s.t, k) && Newcomer(s.t, s'.t, k, u, env)
  {
    TagsRegistered(s);
  }

  lemma TagsRegistered(s: State)
    requires Registry(s)
    ensures forall k, u :: u in Holders(s.t, k) && Holders(s.t, k)[u].composite.Some? ==>
      Holders(s.t, k)[u].composite.value in s.composites
  {
    forall k, u | u in Holders(s.t, k) && Holders(s.t, k)[u].composite.Some?
      ensures Holders(s.t, k)[u].composite.value in s.composites
    {
      assert TagAgrees(s, k, u);
    }
  }

  lemma TradedDeadlines(s: State, s': State, gone: iset<(Key, Uuid)>, env: Env)
    requires Sound(s, {}) && Sound(s', {}) && Trades(s.t, s'.t, gone, env) && Steady(env) && OneDeadline(s)
    requires SameRecords(s, s') && NoRevival(s.t, s'.t)
    ensures OneDeadline(s')
  {
    forall c, k, u, x, v | Live(s', c, k, u) && Live(s', c, x, v)
      ensures Holders(s'.t, k)[u].expiresAt == Holders(s'.t, x)[v].expiresAt
    {
      if c in s.composites {
        OldMember(s, s', c, k, u);
        OldMember(s, s', c, x, v);
        assert SameHolder(s.t, s'.t, k, u) && SameHolder(s.t, s'.t, x, v);
      } else {
        NewMember(s, s', gone, env, c, k, u);
        NewMember(s, s', gone, env, c, x, v);
        SameInvitation(s, s', env, c, k, u, x, v);
      }
    }
  }

  lemma SameInvitation(s: State, s': State, env: Env, c: Uuid, k: Key, u: Uuid, x: Key, v: Uuid)
    requires Sound(s, {}) && Sound(s', {}) && Steady(env) && Live(s', c, k, u) && Live(s', c, x, v)
    requires Newcomer(s.t, s'.t, k, u, env) && Newcomer(s.t, s'.t, x, v, env)
    ensures Holders(s'.t, k)[u].expiresAt == Holders(s'.t, x)[v].expiresAt
  {
    var h, h' := Holders(s'.t, k)[u], Holders(s'.t, x)[v];
    assert h.composite == Some(c) && h'.composite == Some(c);
    var y, w :| Becomes(s.t, k, u, h, y, w, env);
    var y', w' :| Becomes(s.t, x, v, h', y', w', env);
    assert SameComposite(w, w');
    assert env.clock(u) == env.clock(v);
  }

  /** Holders stay, and the members of a new composite all expire after the same ttl. */
  lemma AskedDeadlines(s: State, s': State, ttl: Millis, env: Env)
    requires Sound(s, {}) && Steady(env) && OneDeadline(s)
    requires SameRecords(s, s') && NoRevival(s.t, s'.t) && Stays(s.t, s'.t)
    requires forall c, k, u :: c !in s.composites && Live(s', c, k, u) ==>
      Holders(s'.t, k)[u].expiresAt == Deadline(env, u, ttl)
    ensures OneDeadline(s')
  {
    forall c, k, u, x, v | Live(s', c, k, u) && Live(s', c, x, v)
      ensures Holders(s'.t, k)[u].expiresAt == Holders(s'.t, x)[v].expiresAt
    {
      if c in s.composites {
        OldMember(s, s', c, k, u);
        OldMember(s, s', c, x, v);
        assert SameHolder(s.t, s'.t, k, u) && SameHolder(s.t, s'.t, x, v);
      } else {
        assert env.clock(u) == env.clock(v);
      }
    }
  }

  lemma AcquiredDeadlines(s: State, ws: Ws, req: ManyReq, env: Env, s': State)
    requires Sound(s, {}) && Steady(env) && OneDeadline(s) && s' == AcquireMany(s, ws, req, env)
    ensures OneDeadline(s')
  {
    AcquireManySound(s, ws, req, env, iset c | c in s.composites);
    forall c, k, u | c !in s.composites && Live(s', c, k, u)
      ensures Holders(s'.t, k)[u].expiresAt == Deadline(env, u, ManyTtl(s, req.ttl))
    {
      AcquiredAt(s, ws, req, env, c, k, u);
    }
    AskedDeadlines(s, s', ManyTtl(s, req.ttl), env);
  }

  lemma AcquiredAt(s: State, ws: Ws, req: ManyReq, env: Env, c: Uuid, k: Key, u: Uuid)
    requires c !in s.composites && Live(AcquireMany(s, ws, req, env), c, k, u)
    ensures Holders(AcquireMany(s, ws, req, env).t, k)[u].expiresAt == Deadline(env, u, ManyTtl(s, req.ttl))
  {
    if !BadKeys(req.keys) {
      var ks := RequestedKeys(req.keys.entries);
      var w := Waiter(ws, req.uuid, ManyTtl(s, req.ttl), Some(CompositeAsk(ks, Minted(s.t.minted))));
      AskedAt(DrawOne(s), w, req.wait, env, c, k, u);
    }
  }

  lemma AskedAt(s: State, w: Waiter, wait: bool, env: Env, c: Uuid, k: Key, u: Uuid)
    requires w.composite.Some? && c !in s.composites && Live(AskMany(s, w, wait, env), c, k, u)
    ensures Holders(AskMany(s, w, wait, env).t, k)[u].expiresAt == Deadline(env, u, w.ttl)
  {
    if TryAll(s.t, w, env).contended.None? { CompositeAtKey(s.t, w, env, k); }
  }

  lemma LockedDeadlines(s: State, ws: Ws, req: LockReq, env: Env, s': State)
    requires Sound(s, {}) && NoLostWakeup(s.t) && LockFresh(s.t, req)
    requires Steady(env) && OneDeadline(s) && s' == Lock(s, ws, req, env)
    ensures OneDeadline(s')
  {
    LockSound(s, ws, req, env, iset c | c in s.composites);
    LockRecords(s, ws, req, env);
    AskedDeadlines(s, s', Infinity, env);
  }

  lemma StepOneDeadline(s: State, e: Event, env: Env)
    requires Sound(s, {}) && NoLostWakeup(s.t) && Valid(s, e, env) && Steady(env) && OneDeadline(s)
    ensures OneDeadline(Step(s, e, env))
  {
    if Asks(s, e) {
      if e.LockEvent? {
        LockedDeadlines(s, e.ws, e.lock, env, Step(s, e, env));
      } else {
        AcquiredDeadlines(s, e.ws, e.many, env, Step(s, e, env));
      }
    } else {
      StepKeeps(s, e, env);
      TradedDeadlines(s, Step(s, e, env), Removed(s, e), env);
    }
  }

  /** With one deadline per composite, no sweep breaks one. */
  lemma SweepUnbroken(s: State, e: Event)
    requires OneDeadline(s) && e.TickEvent?
    ensures !Breaks(s, e)
  {}

  // ----- Every run -----

  /** A run whose every step is given what it is owed, and raises no queued key's `max` too far. */
  ghost predicate ValidRun(s: State, ins: seq<Input>)
    decreases |ins|
  {
    ins != [] ==>
      var (e, env) := (ins[0].event, ins[0].env);
      Valid(s, e, env) && Raise(s, e) && ValidRun(Step(s, e, env), ins[1..])
  }

  lemma {:induction false} RunSound(s: State, ins: seq<Input>)
    requires Sound(s, {}) && NoLostWakeup(s.t) && ValidRun(s, ins)
    ensures Sound(Run(s, ins), {}) && NoLostWakeup(Run(s, ins).t)
    decreases |ins|
  {
    if ins != [] {
      StepKeeps(s, ins[0].event, ins[0].env);
      StepServes(s, ins[0].event, ins[0].env);
      RunSound(Step(s, ins[0].event, ins[0].env), ins[1..]);
    }
  }

  lemma StartSound(fence: Fence, lockExpiresAfter: Pos)
    ensures Sound(Start(fence, lockExpiresAfter), {}) && NoLostWakeup(Start(fence, lockExpiresAfter).t)
  {
    var s := Start(fence, lockExpiresAfter);
    forall k ensures Holders(s.t, k) == map[] && Queue(s.t, k) == [] {}
    assert forall k, w :: !Waits(s.t, k, w);
    assert forall c, k, u :: !Member(s, c, k, u);
  }

  /** In every state a new broker can get to: the deadline index is exactly the live holders with a finite
      expiry, the registry agrees with the holders, and no key has both a waiter and room. */
  lemma EveryRunSound(fence: Fence, lockExpiresAfter: Pos, ins: seq<Input>)
    requires ValidRun(Start(fence, lockExpiresAfter), ins)
    ensures var s := Run(Start(fence, lockExpiresAfter), ins); Sound(s, {}) && NoLostWakeup(s.t)
  {
    StartSound(fence, lockExpiresAfter);
    RunSound(Start(fence, lockExpiresAfter), ins);
  }

  // ----- No hold-and-wait -----

  lemma WaiterHoldsNothing(s: State, k: Key, w: Waiter)
    requires Sound(s, {}) && Waits(s.t, k, w) && w.composite.Some?
    ensures var ask := w.composite.value;
      && k in ask.allKeys && ask.lockUuid !in s.composites
      && (forall x, u :: u in Holders(s.t, x) ==> Holders(s.t, x)[u].composite != Some(ask.lockUuid))
      && (forall x, v :: Waits(s.t, x, v) && SameComposite(v, w) ==> x == k && v == w)
  {
    forall x, u | u in Holders(s.t, x) ensures Holders(s.t, x)[u].composite != Some(w.composite.value.lockUuid) {
      assert TagAgrees(s, x, u);
    }
    forall x, v | Waits(s.t, x, v) && SameComposite(v, w) ensures x == k && v == w {
      assert Waits(s.t, x, v) && Waits(s.t, k, w);
    }
  }

  /** In every state a new broker can get to, a composite that waits owns no hold, is not registered,
      waits for a key of its own, and waits nowhere else. */
  lemma NoHoldAndWait(fence: Fence, lockExpiresAfter: Pos, ins: seq<Input>, k: Key, w: Waiter)
    requires ValidRun(Start(fence, lockExpiresAfter), ins)
    requires Waits(Run(Start(fence, lockExpiresAfter), ins).t, k, w) && w.composite.Some?
    ensures var (s, ask) := (Run(Start(fence, lockExpiresAfter), ins), w.composite.value);
      && k in ask.allKeys && ask.lockUuid !in s.composites
      && (forall x, u :: u in Holders(s.t, x) ==> Holders(s.t, x)[u].composite != Some(ask.lockUuid))
      && (forall x, v :: Waits(s.t, x, v) && SameComposite(v, w) ==> x == k && v == w)
  {
    EveryRunSound(fence, lockExpiresAfter, ins);
    WaiterHoldsNothing(Run(Start(fence, lockExpiresAfter), ins), k, w);
  }

  // ----- Runs that split no composite -----

  /** What holds between steps, when nothing splits a composite. */
  ghost predicate Fit(s: State) {
    Sound(s, {}) && NoLostWakeup(s.t) && AllOrNone(s) && OneDeadline(s)
  }

  /** A valid step that moves no clock within itself, unlocks no part of a composite, and closes no
      socket that holds a key one of its own composites waits for. */
  ghost predicate Careful(s: State, e: Event, env: Env) {
    && Valid(s, e, env) && Raise(s, e) && Steady(env)
    && (e.UnlockEvent? ==> !Breaks(s, e))
    && (!Dropped(s, e) && e.CloseEvent? ==> Apart(s.t, e.ws))
  }

  ghost predicate CarefulRun(s: State, ins: seq<Input>)
    decreases |ins|
  {
    ins != [] ==> Careful(s, ins[0].event, ins[0].env) && CarefulRun(Step(s, ins[0].event, ins[0].env), ins[1..])
  }

  lemma StepFit(s: State, e: Event, env: Env)
    requires Fit(s) && Careful(s, e, env)
    ensures Fit(Step(s, e, env)) && Keeps(s, e, Step(s, e, env))
  {
    StepKeeps(s, e, env);
    StepServes(s, e, env);
    if e.TickEvent? { SweepUnbroken(s, e); }
    if e.CloseEvent? && !Dropped(s, e) { ApartStrandsNone(s, e, env); }
    StepAllOrNone(s, e, env);
    StepOneDeadline(s, e, env);
  }

  lemma StartFit(fence: Fence, lockExpiresAfter: Pos)
    ensures Fit(Start(fence, lockExpiresAfter))
  {
    StartSound(fence, lockExpiresAfter);
    assert forall c, k, u :: !Member(Start(fence, lockExpiresAfter), c, k, u);
  }

  lemma {:induction false} RunFit(s: State, ins: seq<Input>)
    requires Fit(s) && CarefulRun(s, ins)
    ensures Fit(Run(s, ins))
    decreases |ins|
  {
    if ins != [] {
      StepFit(s, ins[0].event, ins[0].env);
      RunFit(Step(s, ins[0].event, ins[0].env), ins[1..]);
    }
  }

  /** Every careful run of a new broker. */
  lemma EveryRunFit(fence: Fence, lockExpiresAfter: Pos, ins: seq<Input>)
    requires CarefulRun(Start(fence, lockExpiresAfter), ins)
    ensures Fit(Run(Start(fence, lockExpiresAfter), ins))
  {
    StartFit(fence, lockExpiresAfter);
    RunFit(Start(fence, lockExpiresAfter), ins);
  }

  // ----- Exact sweeps -----

  ghost predicate DueAt(t: Table, k: Key, u: Uuid, now: int)
    requires u in Holders(t, k)
  {
    Holders(t, k)[u].expiresAt.Finite? && Holders(t, k)[u].expiresAt.n <= now
  }

  /** Waiters ask for a positive time. */
  ghost predicate Lively(t: Table) {
    forall k, w :: Waits(t, k, w) && w.ttl.Finite? ==> w.ttl.n > 0
  }

  /** Exactly the holders due at `now` are gone, the evicted rows name each once, and nobody else lost
      anything; those granted meanwhile are not due either; and no key with a waiter is left with room. */
  ghost predicate SweptExactly(s: State, s': State, now: int, expired: seq<(Uuid, Key)>) {
    && Distinct(expired) && (forall k, u :: (u, k) in expired <==> u in Holders(s.t, k) && DueAt(s.t, k, u, now))
    && (forall k, u :: u in Holders(s.t, k) ==>
          if DueAt(s.t, k, u, now) then u !in Holders(s'.t, k) else SameHolder(s.t, s'.t, k, u))
    && (forall k, u :: u in Holders(s'.t, k) ==> !DueAt(s'.t, k, u, now))
    && NoLostWakeup(s'.t) && Sound(s', {})
  }

  /** A sweep at `now`, by a clock that reads `now` or later. */
  lemma SweepExact(s: State, now: int, expired: seq<(Uuid, Key)>, env: Env)
    requires Sound(s, {}) && NoLostWakeup(s.t) && ExpiredRows(s.t, now, expired) && Lively(s.t)
    requires forall u :: env.clock(u) >= now
    ensures SweptExactly(s, Sweep(s, expired, env), now, expired)
  {
    var e, s' := TickEvent(now, expired), Sweep(s, expired, env);
    SweepKeeps(s, now, expired, env, s');
    NoneDue(s.t, s'.t, Removed(s, e), now, env);
  }

  lemma SweepKeeps(s: State, now: int, expired: seq<(Uuid, Key)>, env: Env, s': State)
    requires Sound(s, {}) && NoLostWakeup(s.t) && ExpiredRows(s.t, now, expired) && s' == Sweep(s, expired, env)
    ensures var e := TickEvent(now, expired);
      && Keeps(s, e, s') && Trades(s.t, s'.t, Removed(s, e), env) && NoLostWakeup(s'.t)
      && (forall k, u :: u in Holders(s.t, k) ==> (Removes(s, e, k, u) <==> DueAt(s.t, k, u, now)))
      && (forall k, u :: (u, k) in expired <==> u in Holders(s.t, k) && DueAt(s.t, k, u, now))
  {
    var e := TickEvent(now, expired);
    assert NewWhole(s, Prior(s, e));
    TickKeeps(s, now, expired, env);
    SweepServes(s, expired, env);
    TickRemovesDue(s, now, expired);
  }

  lemma TickRemovesDue(s: State, now: int, expired: seq<(Uuid, Key)>)
    ensures forall k, u :: u in Holders(s.t, k) ==>
      (Removes(s, TickEvent(now, expired), k, u) <==> DueAt(s.t, k, u, now))
  {}

  /** When the holders due at `now` go, and newcomers get positive times, none is left due. */
  lemma NoneDue(t: Table, t': Table, gone: iset<(Key, Uuid)>, now: int, env: Env)
    requires Trades(t, t', gone, env) && Lively(t) && forall u :: env.clock(u) >= now
    requires forall k, u :: u in Holders(t, k) && DueAt(t, k, u, now) ==> (k, u) in gone
    ensures forall k, u :: u in Holders(t', k) ==> !DueAt(t', k, u, now)
  {
    forall k, u | u in Holders(t', k) ensures !DueAt(t', k, u, now) {
      if u in Holders(t, k) {
        assert (k, u) !in gone && SameHolder(t, t', k, u);
      } else {
        assert Newcomer(t, t', k, u, env);
        var y, w :| Becomes(t, k, u, Holders(t', k)[u], y, w, env);
        assert Waits(t, y, w);
      }
    }
  }

  // ----- Clean disconnects -----

  /** A socket closes: it loses all its holds, its peers none. */
  lemma CloseExact(s: State, ws: Ws, visits: Visits, env: Env)
    requires Sound(s, {}) && NoLostWakeup(s.t) && ws !in s.closed
    requires FullVisit(Unplugged(s, ws), visits, {}, Leaving(s, ws), ws, env)
    ensures var s' := Disconnect(s, ws, visits, env);
      && Sound(s', {}) && NoLostWakeup(s'.t)
      && (forall k, u :: u in Holders(s.t, k) ==>
            if Holders(s.t, k)[u].ws == ws then u !in Holders(s'.t, k) else SameHolder(s.t, s'.t, k, u))
      && ws !in s'.wsUuids
  {
    var e := CloseEvent(ws, visits);
    StepKeeps(s, e, env);
    StepServes(s, e, env);
    forall k, u | u in Holders(s.t, k) ensures Removes(s, e, k, u) <==> Holders(s.t, k)[u].ws == ws {}
    ScrubKeysRecords(Unplugged(s, ws), visits, Leaving(s, ws), ws, env);
  }

  /** If it had no composite queued and answered for every uuid it queued, nothing of it is left. */
  lemma CloseClean(s: State, ws: Ws, visits: Visits, env: Env)
    requires Sound(s, {}) && ws !in s.closed && NoComposite(s.t, ws) && Answerable(s.t, ws, Leaving(s, ws))
    requires FullVisit(Unplugged(s, ws), visits, {}, Leaving(s, ws), ws, env)
    ensures forall k :: Quiet(Disconnect(s, ws, visits, env).t, k, ws)
  {
    ClosedSound(s, ws, visits, env);
    ScrubKeysQuiet(Unplugged(s, ws), visits, {}, Leaving(s, ws), ws, env);
  }

  /** Whatever composites it had queued, none of its single-key waiters is left. */
  lemma CloseUnqueues(s: State, ws: Ws, visits: Visits, env: Env)
    requires Sound(s, {}) && ws !in s.closed && Answerable(s.t, ws, Leaving(s, ws))
    requires FullVisit(Unplugged(s, ws), visits, {}, Leaving(s, ws), ws, env)
    ensures forall k :: NoWaiter(Disconnect(s, ws, visits, env).t, k, ws)
  {
    ClosedSound(s, ws, visits, env);
    ScrubKeysAnswered(Unplugged(s, ws), visits, {}, Leaving(s, ws), ws, env);
  }
}

/** Tokens of the base broker, which remembers a counter only as long as its lock object lives: they
    grow exactly as long as no key is made anew by a clock behind a token it gave out before. */
module BaseTokens {
  import opened BrokerTypes
  import opened BrokerSpec
  import opened BrokerSteps
  import opened Events
  import opened Fencing
  import opened FencedRuns

  /** Tokens grow so far, and no key that has a lock object gave out one above its counter. */
  ghost predicate Counting(t: Table) {
    Increasing(Log(t)) && forall k :: k in t.locks ==> AtMost(Log(t), k, t.locks[k].nextToken)
  }

  /** For every key made anew between `t` and `t'` the clock reads at least the tokens it gave out. */
  ghost predicate ClockAhead(t: Table, t': Table, now: int) {
    forall k :: k in t'.locks && k !in t.locks ==> AtMost(Log(t), k, now)
  }

  // ----- One step -----

  lemma MadeBehind(t: Table, t': Table, k: Key, now: int)
    requires Log(t) <= Log(t') && StartsAt(Log(t'), |Log(t)|, k, now + 1) && !AtMost(Log(t), k, now)
    ensures !Increasing(Log(t'))
  {
    var m :| m in Log(t) && m.key == k && m.token > now;
    var j :| 0 <= j < |Log(t)| && Log(t)[j] == m;
    var i :| |Log(t)| <= i < |Log(t')| && Log(t')[i] == Mint(k, now + 1);
    assert Log(t')[j] == m;
  }

  lemma StillClimbs(t: Table, t': Table, k: Key, now: int)
    requires Counting(t) && Log(t) <= Log(t') && MovesOn(t, t', k, now)
    requires k in t'.locks && k !in t.locks ==> AtMost(Log(t), k, now)
    ensures Climbs(Log(t'), k) && (k in t'.locks ==> AtMost(Log(t'), k, t'.locks[k].nextToken))
  {
    assert Climbs(Log(t), k);
    if k in t.locks { assert CountsUp(t, k); } else if k !in t'.locks { NoneSinceSame(Log(t), Log(t'), k, 0); }
  }

  lemma GrowsCounting(t: Table, t': Table, now: int)
    requires !t.fence.hardened && Counting(t) && Grows(t, t', now)
    ensures Increasing(Log(t')) <==> ClockAhead(t, t', now)
    ensures Increasing(Log(t')) ==> Counting(t')
  {
    if ClockAhead(t, t', now) {
      forall k ensures Climbs(Log(t'), k) && (k in t'.locks ==> AtMost(Log(t'), k, t'.locks[k].nextToken)) {
        assert MovesOn(t, t', k, now);
        StillClimbs(t, t', k, now);
      }
      forall i, j | 0 <= i < j < |Log(t')| && Log(t')[i].key == Log(t')[j].key
        ensures Log(t')[i].token < Log(t')[j].token
      {
        assert Climbs(Log(t'), Log(t')[i].key);
      }
    } else {
      var k :| k in t'.locks && k !in t.locks && !AtMost(Log(t), k, now);
      assert MovesOn(t, t', k, now);
      MadeBehind(t, t', k, now);
    }
  }

  lemma FewerObjects(t: Table, t1: Table)
    requires Counting(t) && ShedsObjects(t, t1)
    ensures Counting(t1) && Log(t1) == Log(t)
  {}

  /** The only key a lock request can make is its own. */
  lemma LockKeys(s: State, ws: Ws, req: LockReq, env: Env)
    requires !BadMax(req.max)
    ensures var (s1, s') := (Register(s, ws, req, env), Lock(s, ws, req, env));
      && s'.t.locks.Keys == s1.t.locks.Keys + {req.key} && s1.t.locks.Keys <= s.t.locks.Keys
      && (req.key in s1.t.locks <==> req.key in s.t.locks)
  {
    var s1 := Register(s, ws, req, env);
    var ttl := SingleTtl(s, req.ttl);
    if req.key in s1.t.locks {
      DecideKeys(s1.(t := SetMax(s1.t, req.key, req.max)), ws, req, ttl, env);
    } else {
      var t1 := Materialize(s1.t, req.key, if req.max.Int? then req.max.n else 1, env);
      assert t1.locks.Keys == s1.t.locks.Keys + {req.key};
      GrantNowKeys(s1.(t := t1), ws, req, ttl, env);
    }
  }

  lemma DecideKeys(s: State, ws: Ws, req: LockReq, ttl: Millis, env: Env)
    requires req.key in s.t.locks
    ensures Decide(s, ws, req, ttl, env).t.locks.Keys == s.t.locks.Keys
  {
    if !Full(s.t, req.key) { GrantNowKeys(s, ws, req, ttl, env); } else { JoinSheds(s.t, ws, req, ttl); }
  }

  lemma GrantNowKeys(s: State, ws: Ws, req: LockReq, ttl: Millis, env: Env)
    requires req.key in s.t.locks
    ensures GrantNow(s, ws, req, ttl, env).t.locks.Keys == s.t.locks.Keys
  {}

  lemma LockCounting(s: State, ws: Ws, req: LockReq, env: Env)
    requires Trusted(s) && !s.t.fence.hardened && Counting(s.t)
    ensures var s' := Lock(s, ws, req, env);
      && (Increasing(Log(s'.t)) <==> ClockAhead(s.t, s'.t, env.now))
      && (Increasing(Log(s'.t)) ==> Counting(s'.t))
  {
    var s' := Lock(s, ws, req, env);
    LockFollows(s, ws, req, env);
    if BadMax(req.max) {
      GrowsCounting(s.t, s'.t, env.now);
    } else {
      var s1 := Register(s, ws, req, env);
      RegisterSheds(s, ws, req, env);
      FewerObjects(s.t, s1.t);
      GrowsCounting(s1.t, s'.t, env.now);
      LockKeys(s, ws, req, env);
    }
  }

  /** Tokens go on growing through a step if and only if its clock is ahead for the keys it makes. */
  lemma StepCounting(s: State, e: Event, env: Env)
    requires Trusted(s) && !s.t.fence.hardened && Counting(s.t)
    ensures var s' := Step(s, e, env);
      && (Increasing(Log(s'.t)) <==> ClockAhead(s.t, s'.t, env.now))
      && (Increasing(Log(s'.t)) ==> Counting(s'.t))
  {
    if e.LockEvent? && !Dropped(s, e) {
      LockCounting(s, e.ws, e.lock, env);
    } else {
      StepFollows(s, e, env);
      GrowsCounting(s.t, Step(s, e, env).t, env.now);
    }
  }

  /** A lock request, as its caller sees it. */
  lemma LockCountsIff(s: State, ws: Ws, req: LockReq, env: Env)
    requires Trusted(s) && !s.t.fence.hardened && Counting(s.t)
    ensures Increasing(Log(Lock(s, ws, req, env).t)) <==>
      BadMax(req.max) || req.key in s.t.locks || AtMost(Log(s.t), req.key, env.now)
  {
    LockCounting(s, ws, req, env);
    if !BadMax(req.max) { LockKeys(s, ws, req, env); }
  }

  /** Whatever the step is: a clock at or above every token of the keys without a lock object. */
  lemma ClockAheadOfAll(t: Table, t': Table, now: int)
    requires forall m :: m in Log(t) ==> m.key in t.locks || m.token <= now
    ensures ClockAhead(t, t', now)
  {}

  // ----- Every run -----

  ghost predicate AheadThroughout(s: State, ins: seq<Input>)
    decreases |ins|
  {
    ins != [] ==>
      var s' := Step(s, ins[0].event, ins[0].env);
      ClockAhead(s.t, s'.t, ins[0].env.now) && AheadThroughout(s', ins[1..])
  }

  lemma {:induction false} RunCounting(s: State, ins: seq<Input>)
    requires Trusted(s) && !s.t.fence.hardened && Counting(s.t)
    ensures Increasing(Log(Run(s, ins).t)) <==> AheadThroughout(s, ins)
    decreases |ins|
  {
    if ins != [] {
      var s' := Step(s, ins[0].event, ins[0].env);
      StepFollows(s, ins[0].event, ins[0].env);
      StepCounting(s, ins[0].event, ins[0].env);
      if ClockAhead(s.t, s'.t, ins[0].env.now) {
        RunCounting(s', ins[1..]);
      } else {
        RunHolds(s', ins[1..]);
        StaysBroken(Log(s'.t), Log(Run(s, ins).t));
      }
    }
  }

  lemma StaysBroken(log: seq<Mint>, more: seq<Mint>)
    requires log <= more && !Increasing(log)
    ensures !Increasing(more)
  {
    var i, j :| 0 <= i < j < |log| && log[i].key == log[j].key && log[i].token >= log[j].token;
    assert more[i] == log[i] && more[j] == log[j];
  }

  /** A new base broker's tokens grow if and only if no key is made anew by a clock behind it. */
  lemma BaseTokensGrow(floor: nat, watermark: int, lockExpiresAfter: Pos, ins: seq<Input>)
    ensures var s := Start(Fence(false, floor, watermark, None), lockExpiresAfter);
      Increasing(Log(Run(s, ins).t)) <==> AheadThroughout(s, ins)
  {
    StartTrusted(Fence(false, floor, watermark, None), lockExpiresAfter);
    RunCounting(Start(Fence(false, floor, watermark, None), lockExpiresAfter), ins);
  }
}

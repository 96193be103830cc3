/** A socket answers for every uuid it waits under, as long as it only unlocks what it was granted;
    so, whatever happened before, closing it leaves nothing of it behind. */
module Sockets {
  import opened BrokerTypes
  import opened Attempts
  import opened BrokerSteps
  import opened Events
  import opened Records
  import opened Invariants
  import opened LostWakeups
  import opened Bookkeeping
  import opened Survival
  import opened Requests
  import opened Disconnects
  import opened Safety
  import opened SafeRuns
  import opened Queues
  import opened Origins

  ghost predicate Answering(s: State) {
    forall k, w :: Waits(s.t, k, w) && w.composite.None? ==> w.uuid in Leaving(s, w.ws)
  }

  /** No unlock from a socket names a uuid that the socket still waits under. */
  ghost predicate UnlocksGranted(s: State, e: Event) {
    e.UnlockEvent? && e.from.Some? && e.unlock.target.Some? ==>
      forall k, w :: Waits(s.t, k, w) && w.composite.None? && w.ws == e.from.value ==> w.uuid != e.unlock.target.value
  }

  // ----- Every step -----

  lemma LockAnswering(s: State, ws: Ws, req: LockReq, env: Env, s': State)
    requires Answering(s) && s' == Lock(s, ws, req, env)
    ensures Answering(s')
  {
    LockWaits(s, ws, req, env, s');
    LockRecords(s, ws, req, env);
    if BadMax(req.max) { assert s'.t == s.t; }
  }

  lemma AcquireAnswering(s: State, ws: Ws, req: ManyReq, env: Env, s': State)
    requires Drawn(s.t) && Answering(s) && s' == AcquireMany(s, ws, req, env)
    ensures Answering(s')
  {
    AcquireWaits(s, ws, req, env, s');
    AcquireRecords(s, ws, req, env);
  }

  lemma CloseAnswering(s: State, e: Event, env: Env, s': State)
    requires Sound(s, {}) && NoLostWakeup(s.t) && Answering(s) && e.CloseEvent? && !Dropped(s, e) && Valid(s, e, env)
    requires s' == Step(s, e, env)
    ensures Answering(s')
  {
    var ws := e.ws;
    StepKeeps(s, e, env);
    StepRecords(s, e, env);
    CloseUnqueues(s, ws, e.visits, env);
    forall k, w | Waits(s'.t, k, w) && w.composite.None? ensures w.uuid in Leaving(s', w.ws) {
      assert Waits(s.t, k, w) && NoWaiter(s'.t, k, ws);
      assert AnswersFor(s, e, s', w.ws);
    }
  }

  lemma TradedAnswering(s: State, s': State, gone: iset<(Key, Uuid)>, env: Env)
    requires Trades(s.t, s'.t, gone, env)
    requires forall k, w :: Waits(s.t, k, w) && w.composite.None? ==> w.uuid in Leaving(s', w.ws)
    ensures Answering(s')
  {}

  lemma StepAnswering(s: State, e: Event, env: Env)
    requires Sound(s, {}) && NoLostWakeup(s.t) && Valid(s, e, env) && Answering(s) && UnlocksGranted(s, e)
    ensures Answering(Step(s, e, env))
  {
    if Asks(s, e) {
      if e.LockEvent? {
        LockAnswering(s, e.ws, e.lock, env, Step(s, e, env));
      } else {
        AcquireAnswering(s, e.ws, e.many, env, Step(s, e, env));
      }
    } else if !Dropped(s, e) {
      if e.CloseEvent? {
        CloseAnswering(s, e, env, Step(s, e, env));
      } else {
        OtherAnswering(s, e, env, Step(s, e, env));
      }
    }
  }

  lemma OtherAnswering(s: State, e: Event, env: Env, s': State)
    requires Sound(s, {}) && NoLostWakeup(s.t) && Valid(s, e, env) && Answering(s) && UnlocksGranted(s, e)
    requires !Asks(s, e) && !Dropped(s, e) && !e.CloseEvent? && s' == Step(s, e, env)
    ensures Answering(s')
  {
    StepKeeps(s, e, env);
    StepRecords(s, e, env);
    forall k, w | Waits(s.t, k, w) && w.composite.None? ensures w.uuid in Leaving(s', w.ws) {
      assert AnswersFor(s, e, s', w.ws);
    }
    TradedAnswering(s, s', Removed(s, e), env);
  }

  // ----- Every run -----

  /** A valid run in which sockets unlock only what they were granted. */
  ghost predicate PoliteRun(s: State, ins: seq<Input>)
    decreases |ins|
  {
    ins != [] ==>
      var (e, env) := (ins[0].event, ins[0].env);
      Valid(s, e, env) && Raise(s, e) && UnlocksGranted(s, e) && PoliteRun(Step(s, e, env), ins[1..])
  }

  lemma {:induction false} RunAnswering(s: State, ins: seq<Input>)
    requires Sound(s, {}) && NoLostWakeup(s.t) && Answering(s) && PoliteRun(s, ins)
    ensures var s' := Run(s, ins); Sound(s', {}) && NoLostWakeup(s'.t) && Answering(s')
    decreases |ins|
  {
    if ins != [] {
      var (e, env) := (ins[0].event, ins[0].env);
      StepKeeps(s, e, env);
      StepServes(s, e, env);
      StepAnswering(s, e, env);
      RunAnswering(Step(s, e, env), ins[1..]);
    }
  }

  /** After any such run of a new broker, a socket without a queued composite closes: no holder and no
      waiter anywhere is its own, no peer lost a hold, and no freed slot is left to nobody. */
  lemma CloseLeavesNothing(fence: Fence, lockExpiresAfter: Pos, ins: seq<Input>, ws: Ws, visits: Visits, env: Env)
    requires PoliteRun(Start(fence, lockExpiresAfter), ins)
    requires var s := Run(Start(fence, lockExpiresAfter), ins);
      && ws !in s.closed && FullVisit(Unplugged(s, ws), visits, {}, Leaving(s, ws), ws, env)
      && NoComposite(s.t, ws)
    ensures var s := Run(Start(fence, lockExpiresAfter), ins);
      var s' := Disconnect(s, ws, visits, env);
      && (forall k :: Quiet(s'.t, k, ws)) && NoLostWakeup(s'.t)
      && (forall k, u :: u in Holders(s.t, k) && Holders(s.t, k)[u].ws != ws ==> SameHolder(s.t, s'.t, k, u))
  {
    var s := Run(Start(fence, lockExpiresAfter), ins);
    StartSound(fence, lockExpiresAfter);
    assert Answering(Start(fence, lockExpiresAfter)) by {
      forall k ensures Queue(Start(fence, lockExpiresAfter).t, k) == [] {}
    }
    RunAnswering(Start(fence, lockExpiresAfter), ins);
    CloseClean(s, ws, visits, env);
    CloseExact(s, ws, visits, env);
  }

  // ----- Gone for good -----

  /** Nothing of the socket is left anywhere. */
  ghost predicate AllQuiet(t: Table, ws: Ws) {
    forall k :: Quiet(t, k, ws)
  }

  /** Neither a holder nor a waiter is the socket's. */
  ghost predicate Absent(t: Table, ws: Ws) {
    && (forall k, u :: u in Holders(t, k) ==> Holders(t, k)[u].ws != ws)
    && (forall k, w :: Waits(t, k, w) ==> w.ws != ws)
  }

  lemma QuietIsAbsent(t: Table, ws: Ws)
    ensures AllQuiet(t, ws) <==> Absent(t, ws)
  {
    if AllQuiet(t, ws) {
      forall k, u | u in Holders(t, k) ensures Holders(t, k)[u].ws != ws {
        assert Quiet(t, k, ws) && u !in Owned(t, k, ws);
      }
      forall k, w | Waits(t, k, w) ensures w.ws != ws { assert Quiet(t, k, ws); }
    }
    if Absent(t, ws) {
      forall k ensures Quiet(t, k, ws) { assert Owned(t, k, ws) == {}; }
    }
  }

  lemma StepQuiet(s: State, e: Event, env: Env, ws: Ws)
    requires Sound(s, {}) && NoLostWakeup(s.t) && Valid(s, e, env) && ws in s.closed && AllQuiet(s.t, ws)
    ensures ws in Step(s, e, env).closed && AllQuiet(Step(s, e, env).t, ws)
  {
    var s' := Step(s, e, env);
    StepRecords(s, e, env);
    if Asks(s, e) {
      AskNew(s, Input(e, env));
      AskKeeps(s, e, env);
      AskedQuiet(s, s', Input(e, env), ws);
    } else {
      StepKeeps(s, e, env);
      TradedQuiet(s.t, s'.t, Removed(s, e), env, ws);
    }
  }

  /** A request of another socket. */
  lemma AskedQuiet(s: State, s': State, i: Input, ws: Ws)
    requires AllQuiet(s.t, ws) && Stays(s.t, s'.t) && NewFrom(s, s', i)
    requires (i.event.LockEvent? || i.event.AcquireEvent?) && i.event.ws != ws
    ensures AllQuiet(s'.t, ws)
  {
    QuietIsAbsent(s.t, ws);
    forall k, u | u in Holders(s'.t, k) ensures Holders(s'.t, k)[u].ws != ws {
      if u in Holders(s.t, k) { assert SameHolder(s.t, s'.t, k, u); }
    }
    QuietIsAbsent(s'.t, ws);
  }

  lemma TradedQuiet(t: Table, t': Table, gone: iset<(Key, Uuid)>, env: Env, ws: Ws)
    requires AllQuiet(t, ws) && Trades(t, t', gone, env)
    ensures AllQuiet(t', ws)
  {
    QuietIsAbsent(t, ws);
    forall k, u | u in Holders(t', k) ensures Holders(t', k)[u].ws != ws {
      if u in Holders(t, k) {
        assert (k, u) !in gone && SameHolder(t, t', k, u);
      } else {
        assert Newcomer(t, t', k, u, env);
        var y, w :| Becomes(t, k, u, Holders(t', k)[u], y, w, env);
        assert Waits(t, y, w);
      }
    }
    forall k, w | Waits(t', k, w) ensures w.ws != ws {
      if !Waits(t, k, w) { var x :| Waits(t, x, w); }
    }
    QuietIsAbsent(t', ws);
  }

  /** Once nothing of a closed socket is left, it never holds and never waits again: frames of it that still
      arrive are dropped, and nobody else's request brings it back. */
  lemma {:induction false} GoneForGood(s: State, ins: seq<Input>, ws: Ws)
    requires Sound(s, {}) && NoLostWakeup(s.t) && ValidRun(s, ins) && ws in s.closed && AllQuiet(s.t, ws)
    ensures ws in Run(s, ins).closed && AllQuiet(Run(s, ins).t, ws)
    decreases |ins|
  {
    if ins != [] {
      var (e, env) := (ins[0].event, ins[0].env);
      StepQuiet(s, e, env, ws);
      StepKeeps(s, e, env);
      StepServes(s, e, env);
      GoneForGood(Step(s, e, env), ins[1..], ws);
    }
  }
}

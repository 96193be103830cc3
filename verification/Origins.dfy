/** Nobody holds a key, or waits for one, that it did not ask for, nor for another time than it asked:
    whatever happens, however long a request waits, and wherever its retries take it. */
module Origins {
  import opened BrokerTypes
  import opened BrokerSpec
  import opened BrokerSteps
  import opened Events
  import opened Records
  import opened Invariants
  import opened LostWakeups
  import opened Bookkeeping
  import opened Registries
  import opened Survival
  import opened Requests
  import opened Safety
  import opened SafeRuns
  import opened Queues
  import opened Answers
  import opened Notices
  import opened StepNotices

  /** Waiter `w` of `k` is what input `i` asked to be. */
  ghost predicate WaiterFrom(i: Input, byDefault: Pos, k: Key, w: Waiter) {
    match i.event
    case LockEvent(ws, req) =>
      && w.composite.None? && w.ws == ws && w.uuid == req.uuid && k == req.key && req.wait
      && AsksUntil(req.ttl, byDefault, 0, w.ttl)
    case AcquireEvent(ws, req) =>
      && w.composite.Some? && w.ws == ws && w.uuid == req.uuid && req.wait
      && Names(req.keys, w.composite.value.allKeys) && ManyUntil(req.ttl, byDefault, 0, w.ttl)
    case _ => false
  }

  /** Holder `h` of `k`, under `u`, is what input `i` asked for, granted during input `j`. */
  ghost predicate HolderFrom(i: Input, j: Input, byDefault: Pos, k: Key, u: Uuid, h: Holder) {
    match i.event
    case LockEvent(ws, req) =>
      && h.composite.None? && h.ws == ws && u == req.uuid && k == req.key
      && AsksUntil(req.ttl, byDefault, j.env.clock(u), h.expiresAt)
    case AcquireEvent(ws, req) =>
      && h.composite.Some? && h.ws == ws && req.keys.Entries? && Str(k) in req.keys.entries
      && ManyUntil(req.ttl, byDefault, j.env.clock(u), h.expiresAt)
    case _ => false
  }

  ghost predicate WaiterTraced(past: seq<Input>, byDefault: Pos, k: Key, w: Waiter) {
    exists i :: 0 <= i < |past| && WaiterFrom(past[i], byDefault, k, w)
  }

  ghost predicate HolderTraced(past: seq<Input>, byDefault: Pos, k: Key, u: Uuid, h: Holder) {
    exists i, j :: 0 <= i <= j < |past| && HolderFrom(past[i], past[j], byDefault, k, u, h)
  }

  /** Every waiter and every holder comes from an input of the past. */
  ghost predicate Traced(s: State, past: seq<Input>) {
    && (forall k, w :: Waits(s.t, k, w) ==> WaiterTraced(past, s.lockExpiresAfter, k, w))
    && (forall k, u :: u in Holders(s.t, k) ==> HolderTraced(past, s.lockExpiresAfter, k, u, Holders(s.t, k)[u]))
  }

  lemma MoreTraced(past: seq<Input>, more: seq<Input>, byDefault: Pos)
    requires past <= more
    ensures forall k, w :: WaiterTraced(past, byDefault, k, w) ==> WaiterTraced(more, byDefault, k, w)
    ensures forall k, u, h :: HolderTraced(past, byDefault, k, u, h) ==> HolderTraced(more, byDefault, k, u, h)
  {
    forall k, w | WaiterTraced(past, byDefault, k, w) ensures WaiterTraced(more, byDefault, k, w) {
      var i :| 0 <= i < |past| && WaiterFrom(past[i], byDefault, k, w);
      assert WaiterFrom(more[i], byDefault, k, w);
    }
    forall k, u, h | HolderTraced(past, byDefault, k, u, h) ensures HolderTraced(more, byDefault, k, u, h) {
      var i, j :| 0 <= i <= j < |past| && HolderFrom(past[i], past[j], byDefault, k, u, h);
      assert HolderFrom(more[i], more[j], byDefault, k, u, h);
    }
  }

  // ----- Granted after waiting -----

  /** What a waiter becomes comes from the input the waiter comes from. */
  lemma GrantedFrom(past: seq<Input>, last: Input, byDefault: Pos, y: Key, w: Waiter, k: Key, u: Uuid, h: Holder)
    requires WaiterTraced(past, byDefault, y, w) && Shape(k, u, h, y, w, last.env)
    requires w.composite.Some? ==> k in w.composite.value.allKeys
    ensures HolderTraced(past + [last], byDefault, k, u, h)
  {
    var i :| 0 <= i < |past| && WaiterFrom(past[i], byDefault, y, w);
    assert (past + [last])[i] == past[i] && (past + [last])[|past|] == last;
    assert HolderFrom(past[i], last, byDefault, k, u, h);
  }

  /** A member that came meanwhile holds a key its waiter asked for. */
  lemma MemberKey(s: State, s': State, k: Key, u: Uuid, y: Key, w: Waiter, env: Env)
    requires Registry(s) && Registry(s') && KeysAsked(s, s') && u in Holders(s'.t, k)
    requires Becomes(s.t, k, u, Holders(s'.t, k)[u], y, w, env) && w.composite.Some?
    ensures k in w.composite.value.allKeys
  {
    var c := w.composite.value.lockUuid;
    assert Waits(s.t, y, w) && TagAgrees(s', k, u);
    assert WellFormed(s'.composites[c], s'.t.minted);
    assert NewComposite(s, s', c);
  }

  lemma TradedTraced(s: State, s': State, gone: iset<(Key, Uuid)>, past: seq<Input>, last: Input)
    requires Registry(s) && Registry(s') && Trades(s.t, s'.t, gone, last.env) && KeysAsked(s, s')
    requires Traced(s, past) && s'.lockExpiresAfter == s.lockExpiresAfter
    ensures Traced(s', past + [last])
  {
    MoreTraced(past, past + [last], s.lockExpiresAfter);
    forall k, w | Waits(s'.t, k, w) ensures WaiterTraced(past + [last], s.lockExpiresAfter, k, w) {
      if !Waits(s.t, k, w) {
        var x :| Waits(s.t, x, w);
        CompositeMoves(past, s.lockExpiresAfter, x, k, w);
      }
    }
    forall k, u | u in Holders(s'.t, k)
      ensures HolderTraced(past + [last], s.lockExpiresAfter, k, u, Holders(s'.t, k)[u])
    {
      if u in Holders(s.t, k) {
        assert SameHolder(s.t, s'.t, k, u);
      } else {
        assert Newcomer(s.t, s'.t, k, u, last.env);
        var y, w :| Becomes(s.t, k, u, Holders(s'.t, k)[u], y, w, last.env);
        if w.composite.Some? { MemberKey(s, s', k, u, y, w, last.env); }
        GrantedFrom(past, last, s.lockExpiresAfter, y, w, k, u, Holders(s'.t, k)[u]);
      }
    }
  }

  /** A composite may wait for another key of its own. */
  lemma CompositeMoves(past: seq<Input>, byDefault: Pos, x: Key, k: Key, w: Waiter)
    requires w.composite.Some? && WaiterTraced(past, byDefault, x, w)
    ensures WaiterTraced(past, byDefault, k, w)
  {
    var i :| 0 <= i < |past| && WaiterFrom(past[i], byDefault, x, w);
    assert WaiterFrom(past[i], byDefault, k, w);
  }

  // ----- Asked for now -----

  lemma WaiterNow(past: seq<Input>, last: Input, byDefault: Pos, k: Key, w: Waiter)
    requires WaiterFrom(last, byDefault, k, w)
    ensures WaiterTraced(past + [last], byDefault, k, w)
  {
    assert (past + [last])[|past|] == last;
  }

  lemma HolderNow(past: seq<Input>, last: Input, byDefault: Pos, k: Key, u: Uuid, h: Holder)
    requires HolderFrom(last, last, byDefault, k, u, h)
    ensures HolderTraced(past + [last], byDefault, k, u, h)
  {
    assert (past + [last])[|past|] == last;
  }

  /** Every new holder and every new waiter is what the input asked for. */
  ghost predicate NewFrom(s: State, s': State, last: Input) {
    && (forall k, w :: Waits(s'.t, k, w) && !Waits(s.t, k, w) ==> WaiterFrom(last, s.lockExpiresAfter, k, w))
    && (forall k, u :: u in Holders(s'.t, k) && u !in Holders(s.t, k) ==>
          HolderFrom(last, last, s.lockExpiresAfter, k, u, Holders(s'.t, k)[u]))
  }

  lemma AskedTraced(s: State, s': State, past: seq<Input>, last: Input)
    requires Traced(s, past) && Stays(s.t, s'.t) && s'.lockExpiresAfter == s.lockExpiresAfter && NewFrom(s, s', last)
    ensures Traced(s', past + [last])
  {
    MoreTraced(past, past + [last], s.lockExpiresAfter);
    forall k, w | Waits(s'.t, k, w) ensures WaiterTraced(past + [last], s.lockExpiresAfter, k, w) {
      if !Waits(s.t, k, w) { WaiterNow(past, last, s.lockExpiresAfter, k, w); }
    }
    forall k, u | u in Holders(s'.t, k)
      ensures HolderTraced(past + [last], s.lockExpiresAfter, k, u, Holders(s'.t, k)[u])
    {
      if u in Holders(s.t, k) {
        assert SameHolder(s.t, s'.t, k, u);
      } else {
        HolderNow(past, last, s.lockExpiresAfter, k, u, Holders(s'.t, k)[u]);
      }
    }
  }

  lemma LockNew(s: State, ws: Ws, req: LockReq, env: Env)
    requires Sound(s, {}) && NoLostWakeup(s.t) && LockFresh(s.t, req)
    ensures NewFrom(s, Lock(s, ws, req, env), Input(LockEvent(ws, req), env))
  {
    var s' := Lock(s, ws, req, env);
    LockSound(s, ws, req, env, Recorded(s));
    if BadMax(req.max) {
      BadMaxAnswer(s, ws, req, env);
    } else {
      LockAnswer(s, ws, req, env);
      LockWaits(s, ws, req, env, s');
      LockedNew(s, s', ws, req, env);
    }
  }

  lemma LockedNew(s: State, s': State, ws: Ws, req: LockReq, env: Env)
    requires ToldGranted(s, s', ws, req, env) || ToldRefused(s, s', ws, req, env)
    requires forall k, u :: u in Holders(s'.t, k) && u !in Holders(s.t, k) ==> k == req.key && u == req.uuid
    requires forall k, w :: Waits(s'.t, k, w) && !Waits(s.t, k, w) ==>
      k == req.key && w == Waiter(ws, req.uuid, SingleTtl(s, req.ttl), None)
    ensures NewFrom(s, s', Input(LockEvent(ws, req), env))
  {
    var last := Input(LockEvent(ws, req), env);
    forall k, w | Waits(s'.t, k, w) && !Waits(s.t, k, w) ensures WaiterFrom(last, s.lockExpiresAfter, k, w) {
      assert Queue(s'.t, req.key) != Queue(s.t, req.key);
    }
  }

  lemma AcquireNew(s: State, ws: Ws, req: ManyReq, env: Env)
    requires Sound(s, {})
    ensures NewFrom(s, AcquireMany(s, ws, req, env), Input(AcquireEvent(ws, req), env))
  {
    var s' := AcquireMany(s, ws, req, env);
    if !GoodKeys(req.keys) {
      BadKeysAnswer(s, ws, req, env);
    } else {
      var ks, i := AcquireAnswer(s, ws, req, env);
      AcquireManySound(s, ws, req, env, Recorded(s));
      if forall k :: k in ks ==> !Full(s.t, k) {
        AllNew(s, s', ws, req, env, ks);
      } else {
        StoppedNew(s, s', ws, req, env, ks, i);
      }
    }
  }

  lemma AllNew(s: State, s': State, ws: Ws, req: ManyReq, env: Env, ks: KeyList)
    requires Sound(s, {}) && Sound(s', {}) && AddsMinted(s.t, s'.t, s.t.minted)
    requires ToldAll(s, s', ws, req, env, Minted(s.t.minted), ks) && Names(req.keys, ks)
    ensures NewFrom(s, s', Input(AcquireEvent(ws, req), env))
  {
    var c, last := Minted(s.t.minted), Input(AcquireEvent(ws, req), env);
    forall k, u | u in Holders(s'.t, k) && u !in Holders(s.t, k)
      ensures HolderFrom(last, last, s.lockExpiresAfter, k, u, Holders(s'.t, k)[u])
    {
      NewMember(s, s', c, k, u);
      assert HoldsMember(s, s', ws, req, env, c, k);
    }
  }

  /** A new holder is a member of the only new composite. */
  lemma NewMember(s: State, s': State, c: Uuid, k: Key, u: Uuid)
    requires Sound(s, {}) && Sound(s', {}) && AddsMinted(s.t, s'.t, s.t.minted)
    requires c in s'.composites && s'.composites == s.composites[c := s'.composites[c]]
    requires u in Holders(s'.t, k) && u !in Holders(s.t, k)
    ensures k in s'.composites[c].keys && Member(s', c, k, u)
  {
    assert forall d :: d in s.composites ==> WellFormed(s.composites[d], s.t.minted);
    assert u.Minted? && s.t.minted <= u.n && TagAgrees(s', k, u);
    assert WellFormed(s'.composites[Holders(s'.t, k)[u].composite.value], s'.t.minted);
  }

  lemma StoppedNew(s: State, s': State, ws: Ws, req: ManyReq, env: Env, ks: KeyList, i: nat)
    requires ToldStopped(s, s', ws, req, env, Minted(s.t.minted), ks, i) && Names(req.keys, ks)
    ensures NewFrom(s, s', Input(AcquireEvent(ws, req), env))
  {
    var last := Input(AcquireEvent(ws, req), env);
    forall k, w | Waits(s'.t, k, w) && !Waits(s.t, k, w) ensures WaiterFrom(last, s.lockExpiresAfter, k, w) {
      assert k == ks[i];
    }
  }

  /** Whoever comes in the step of a request comes by that request. */
  lemma AskNew(s: State, i: Input)
    requires Sound(s, {}) && NoLostWakeup(s.t) && Valid(s, i.event, i.env) && Asks(s, i.event)
    ensures NewFrom(s, Step(s, i.event, i.env), i)
  {
    var (e, env) := (i.event, i.env);
    if e.LockEvent? { LockNew(s, e.ws, e.lock, env); } else { AcquireNew(s, e.ws, e.many, env); }
  }

  // ----- Every step, every run -----

  lemma StepTraced(s: State, i: Input, past: seq<Input>)
    requires Sound(s, {}) && NoLostWakeup(s.t) && Valid(s, i.event, i.env) && Traced(s, past)
    ensures Traced(Step(s, i.event, i.env), past + [i])
  {
    var (e, env) := (i.event, i.env);
    StepRecords(s, e, env);
    if Asks(s, e) {
      AskNew(s, i);
      AskKeeps(s, e, env);
      AskedTraced(s, Step(s, e, env), past, i);
    } else {
      StepKeeps(s, e, env);
      StepNotifies(s, e, env);
      TradedTraced(s, Step(s, e, env), Removed(s, e), past, i);
    }
  }

  lemma {:induction false} RunTraced(s: State, ins: seq<Input>, past: seq<Input>)
    requires Sound(s, {}) && NoLostWakeup(s.t) && ValidRun(s, ins) && Traced(s, past)
    ensures Traced(Run(s, ins), past + ins)
    decreases |ins|
  {
    if ins == [] {
      assert past + ins == past;
    } else {
      var s1 := Step(s, ins[0].event, ins[0].env);
      StepTraced(s, ins[0], past);
      StepKeeps(s, ins[0].event, ins[0].env);
      StepServes(s, ins[0].event, ins[0].env);
      RunTraced(s1, ins[1..], past + [ins[0]]);
      assert past + [ins[0]] + ins[1..] == past + ins;
    }
  }

  /** In every state a new broker can get to: whoever holds a key has asked for it, alone or among others, and
      holds it until the time it asked for, counted from the reading of the clock when it was granted; and
      whoever waits has asked to. */
  lemma EveryHoldAsked(fence: Fence, lockExpiresAfter: Pos, ins: seq<Input>)
    requires ValidRun(Start(fence, lockExpiresAfter), ins)
    ensures Traced(Run(Start(fence, lockExpiresAfter), ins), ins)
  {
    var s := Start(fence, lockExpiresAfter);
    StartSound(fence, lockExpiresAfter);
    forall k ensures Holders(s.t, k) == map[] && Queue(s.t, k) == [] {}
    RunTraced(s, ins, []);
    assert [] + ins == ins;
  }
}

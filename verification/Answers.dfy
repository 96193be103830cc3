/** What the broker answers is what it did: each request gets one answer, and the answer says how the
    request went. */
module Answers {
  import opened BrokerTypes
  import opened BrokerSpec
  import opened Attempts
  import opened BrokerSteps
  import opened Bookkeeping
  import opened Requests
  import Queues

  /** One frame was sent, if its socket still takes any. */
  predicate Sends(s: State, s': State, env: Env, f: Frame) {
    s'.out == if f.to in env.live then s.out + [f] else s.out
  }

  // ----- lock -----

  /** The `max` the request is judged by: its own, else the key's, else one. */
  function JudgedBy(t: Table, req: LockReq): Pos
    requires !BadMax(req.max)
  {
    if req.max.Int? then req.max.n else MaxOf(t, req.key)
  }

  function GrantedFrame(ws: Ws, req: LockReq, count: nat, token: int): Frame {
    LockFrame(ws, req.uuid, req.key, count, true, Some(token))
  }

  /** `x` is what the ttl of a lock request comes to, counted from `from`: forever when it says so; its number
      of milliseconds, but for zero; and else the default. */
  ghost predicate AsksUntil(raw: RawTtl, byDefault: Pos, from: int, x: Millis) {
    && (raw.InfiniteTtl? ==> x == Infinity)
    && (raw.MillisTtl? && raw.n != 0 ==> x == Finite(from + raw.n))
    && (!raw.InfiniteTtl? && (raw.MillisTtl? ==> raw.n == 0) ==> x == Finite(from + byDefault))
  }

  /** `u` has the deadline row of a holder of `k` that expires at `x`, and no other row is different. */
  ghost predicate AddsRow(t: Table, t': Table, k: Key, u: Uuid, x: Millis) {
    t'.deadlines == if x.Finite? then t.deadlines[u := Row(k, x.n)] else t.deadlines
  }

  /** `s'` is `s` with the request granted for the time it asks, and told so. */
  ghost predicate ToldGranted(s: State, s': State, ws: Ws, req: LockReq, env: Env) {
    && req.uuid in Holders(s'.t, req.key) && Holders(s'.t, req.key)[req.uuid].ws == ws
    && Holders(s'.t, req.key)[req.uuid].composite.None?
    && AsksUntil(req.ttl, s.lockExpiresAfter, env.clock(req.uuid), Holders(s'.t, req.key)[req.uuid].expiresAt)
    && AddsRow(s.t, s'.t, req.key, req.uuid, Holders(s'.t, req.key)[req.uuid].expiresAt)
    && Sends(s, s', env, GrantedFrame(ws, req, |Queue(s.t, req.key)|, Holders(s'.t, req.key)[req.uuid].token))
    && Queue(s'.t, req.key) == Queue(s.t, req.key)
  }

  /** A waiter of request `req` stands in the queue, with the time it asks. */
  ghost predicate WaitsFor(t: Table, ws: Ws, req: LockReq, byDefault: Pos) {
    exists ttl :: AsksUntil(req.ttl, byDefault, 0, ttl) && Waiter(ws, req.uuid, ttl, None) in Queue(t, req.key)
  }

  /** `s'` is `s` with the request not granted, and told so; it waits if it was ready to, for the time it asks
      unless it stood there before. */
  ghost predicate ToldRefused(s: State, s': State, ws: Ws, req: LockReq, env: Env) {
    && Holders(s'.t, req.key) == Holders(s.t, req.key)
    && Sends(s, s', env, LockFrame(ws, req.uuid, req.key, |Queue(s.t, req.key)|, false, None))
    && (if req.wait then Contains(Queue(s'.t, req.key), req.uuid) else Queue(s'.t, req.key) == Queue(s.t, req.key))
    && (req.wait && (req.force || !Contains(Queue(s.t, req.key), req.uuid)) ==>
          WaitsFor(s'.t, ws, req, s.lockExpiresAfter))
    && s'.t.deadlines == s.t.deadlines
  }

  lemma GrantNowTold(s: State, ws: Ws, req: LockReq, ttl: Millis, env: Env)
    requires req.key in s.t.locks && AsksUntil(req.ttl, s.lockExpiresAfter, 0, ttl)
    ensures ToldGranted(s, GrantNow(s, ws, req, ttl, env), ws, req, env)
  {}

  lemma JoinedContains(t: Table, ws: Ws, req: LockReq, ttl: Millis)
    requires req.key in t.locks
    ensures var q := Queue(JoinQueue(t, ws, req, ttl), req.key);
      && Contains(q, req.uuid)
      && (req.force || !Contains(Queue(t, req.key), req.uuid) ==> Waiter(ws, req.uuid, ttl, None) in q)
  {
    var q, q' := Queue(t, req.key), Queue(JoinQueue(t, ws, req, ttl), req.key);
    var w := Waiter(ws, req.uuid, ttl, None);
    if req.force || (!Contains(q, req.uuid) && req.retry) { assert q'[0] == w; }
    else if !Contains(q, req.uuid) { assert q'[|q|] == w; }
  }

  lemma DecideTold(s: State, ws: Ws, req: LockReq, ttl: Millis, env: Env)
    requires req.key in s.t.locks && AsksUntil(req.ttl, s.lockExpiresAfter, 0, ttl)
    ensures var s' := Decide(s, ws, req, ttl, env);
      if !Full(s.t, req.key) then ToldGranted(s, s', ws, req, env) else ToldRefused(s, s', ws, req, env)
  {
    if !Full(s.t, req.key) {
      GrantNowTold(s, ws, req, ttl, env);
    } else {
      JoinedContains(s.t, ws, req, ttl);
      JoinHolders(s.t, ws, req, ttl);
    }
  }

  lemma JoinHolders(t: Table, ws: Ws, req: LockReq, ttl: Millis)
    requires req.key in t.locks
    ensures var t' := JoinQueue(t, ws, req, ttl);
      Holders(t', req.key) == Holders(t, req.key) && t'.deadlines == t.deadlines
  {}

  /** A change that shows neither in the key's holders and queue nor in the rows and frames does not change
      what a request is told. */
  lemma ToldSame(s: State, s2: State, s': State, ws: Ws, req: LockReq, env: Env)
    requires Holders(s2.t, req.key) == Holders(s.t, req.key) && Queue(s2.t, req.key) == Queue(s.t, req.key)
    requires s2.out == s.out && s2.t.deadlines == s.t.deadlines && s2.lockExpiresAfter == s.lockExpiresAfter
    ensures ToldGranted(s2, s', ws, req, env) ==> ToldGranted(s, s', ws, req, env)
    ensures ToldRefused(s2, s', ws, req, env) ==> ToldRefused(s, s', ws, req, env)
  {}

  /** A lock request is answered once: granted, with the token its holder has and for the time it asks, if
      and only if the holders are fewer than the max it is judged by. */
  lemma LockAnswer(s: State, ws: Ws, req: LockReq, env: Env)
    requires !BadMax(req.max)
    ensures var s' := Lock(s, ws, req, env);
      if |Holders(s.t, req.key)| < JudgedBy(s.t, req)
      then ToldGranted(s, s', ws, req, env) else ToldRefused(s, s', ws, req, env)
  {
    var s1, k, ttl := Register(s, ws, req, env), req.key, SingleTtl(s, req.ttl);
    RegisterSame(s, ws, req, env);
    if k in s1.t.locks {
      var s2 := s1.(t := SetMax(s1.t, k, req.max));
      SetMaxAtKey(s1.t, k, req.max);
      DecideTold(s2, ws, req, ttl, env);
      ToldSame(s, s2, Lock(s, ws, req, env), ws, req, env);
    } else {
      var s2 := s1.(t := Materialize(s1.t, k, if req.max.Int? then req.max.n else 1, env));
      MaterializeSame(s1.t, k, if req.max.Int? then req.max.n else 1, env);
      GrantNowTold(s2, ws, req, ttl, env);
      ToldSame(s, s2, Lock(s, ws, req, env), ws, req, env);
    }
  }

  lemma DecideMax(s: State, ws: Ws, req: LockReq, ttl: Millis, env: Env, x: Key)
    requires req.key in s.t.locks
    ensures MaxOf(Decide(s, ws, req, ttl, env).t, x) == MaxOf(GrantNow(s, ws, req, ttl, env).t, x) == MaxOf(s.t, x)
  {}

  /** The max a request is judged by is the key's from then on. */
  lemma LockMax(s: State, ws: Ws, req: LockReq, env: Env)
    requires !BadMax(req.max)
    ensures MaxOf(Lock(s, ws, req, env).t, req.key) == JudgedBy(s.t, req)
  {
    var s1, k, ttl := Register(s, ws, req, env), req.key, SingleTtl(s, req.ttl);
    RegisterSame(s, ws, req, env);
    if k in s1.t.locks {
      SetMaxAtKey(s1.t, k, req.max);
      DecideMax(s1.(t := SetMax(s1.t, k, req.max)), ws, req, ttl, env, k);
    } else {
      var m: Pos := if req.max.Int? then req.max.n else 1;
      DecideMax(s1.(t := Materialize(s1.t, k, m, env)), ws, req, ttl, env, k);
    }
  }

  /** A max that is no positive integer is refused, and nothing else happens. */
  lemma BadMaxAnswer(s: State, ws: Ws, req: LockReq, env: Env)
    requires req.max.NotInteger? || (req.max.Int? && req.max.n < 1)
    ensures var s' := Lock(s, ws, req, env);
      && s' == s.(out := s'.out, sentAt := s'.sentAt)
      && Sends(s, s', env, LockErrorFrame(ws, req.uuid, req.key))
  {}

  // ----- acquire-many -----

  /** Every key asked for is held by the waiter's socket under the composite, with the token the frame
      gives for it. */
  ghost predicate HeldAsTold(t: Table, w: Waiter, a: Attempt)
    requires w.composite.Some?
  {
    var ask := w.composite.value;
    forall k :: k in ask.allKeys ==>
      && k in a.us && k in a.toks && a.us[k] in Holders(t, k)
      && var h := Holders(t, k)[a.us[k]]; h.ws == w.ws && h.token == a.toks[k] && h.composite == Some(ask.lockUuid)
  }

  lemma GrantedHeld(t: Table, w: Waiter, env: Env)
    requires w.composite.Some? && TryAll(t, w, env).contended.None?
    ensures HeldAsTold(TryAll(t, w, env).t, w, TryAll(t, w, env))
  {
    forall k | k in w.composite.value.allKeys
      ensures var a := TryAll(t, w, env);
        && k in a.us && k in a.toks && a.us[k] in Holders(a.t, k)
        && var (h, c) := (Holders(a.t, k)[a.us[k]], w.composite.value.lockUuid);
           h.ws == w.ws && h.token == a.toks[k] && h.composite == Some(c)
    {
      CompositeAtKey(t, w, env, k);
    }
  }

  /** A multi-key request is answered once. Told that it was granted, it holds every key with the tokens
      it was told, under the composite it was told; told that it was not, the key named is one of its
      own, and full. */
  lemma AskAnswer(s: State, w: Waiter, wait: bool, env: Env)
    requires w.composite.Some?
    ensures var (s', ask, a) := (AskMany(s, w, wait, env), w.composite.value, TryAll(s.t, w, env));
      if a.contended.None?
      then Sends(s, s', env, ManyGranted(w.ws, w.uuid, ask.allKeys, ask.lockUuid, a.toks)) && HeldAsTold(s'.t, w, a)
           && ask.lockUuid in s'.composites && s'.composites[ask.lockUuid] == Composite(ask.allKeys, a.us, a.toks)
      else var c := a.contended.value;
        && Sends(s, s', env, ManyRefused(w.ws, w.uuid, ask.allKeys, c, |Queue(s'.t, c)|))
        && c in ask.allKeys && Full(s.t, c)
        && (wait ==> Contains(Queue(s'.t, c), w.uuid)) && s'.composites == s.composites
  {
    if TryAll(s.t, w, env).contended.None? { GrantedHeld(s.t, w, env); } else { RefusedTold(s, w, wait, env); }
  }

  lemma RefusedTold(s: State, w: Waiter, wait: bool, env: Env)
    requires w.composite.Some? && TryAll(s.t, w, env).contended.Some?
    ensures var (s', ask, c) := (AskMany(s, w, wait, env), w.composite.value, TryAll(s.t, w, env).contended.value);
      && Sends(s, s', env, ManyRefused(w.ws, w.uuid, ask.allKeys, c, |Queue(s'.t, c)|))
      && c in ask.allKeys && Full(s.t, c)
      && (wait ==> Contains(Queue(s'.t, c), w.uuid)) && s'.composites == s.composites
  {
    var a := TryAll(s.t, w, env);
    FailedStop(s.t, w, env);
    EnqueuedContains(a.t, a.contended.value, w);
  }

  lemma EnqueuedContains(t: Table, k: Key, w: Waiter)
    requires k in t.locks
    ensures Contains(Queue(Enqueue(t, k, w), k), w.uuid)
  {
    if !Contains(Queue(t, k), w.uuid) { assert Queue(Enqueue(t, k, w), k)[|Queue(t, k)|].uuid == w.uuid; }
  }

  /** `x` is what the ttl of a multi-key request comes to, counted from `from`: forever when it is null; its
      number of milliseconds, when positive; and else the default. */
  ghost predicate ManyUntil(raw: RawTtl, byDefault: Pos, from: int, x: Millis) {
    && (raw.NullTtl? ==> x == Infinity)
    && (raw.MillisTtl? && raw.n > 0 ==> x == Finite(from + raw.n))
    && (!raw.NullTtl? && (raw.MillisTtl? ==> raw.n <= 0) ==> x == Finite(from + byDefault))
  }

  /** An array of 1 to 64 strings, none of them empty. */
  predicate GoodKeys(raw: RawKeys) {
    && raw.Entries? && 1 <= |raw.entries| <= 64
    && forall i :: 0 <= i < |raw.entries| ==> raw.entries[i].Str? && raw.entries[i].key.name != []
  }

  /** `ks` are the keys asked for, in order. */
  ghost predicate Names(raw: RawKeys, ks: KeyList) {
    raw.Entries? && Sorted(ks) && forall k :: k in ks <==> Str(k) in raw.entries
  }

  /** The request came to hold `k` under composite `c`, with the token registered, for the time it asks. */
  ghost predicate HoldsMember(s: State, s': State, ws: Ws, req: ManyReq, env: Env, c: Uuid, k: Key) {
    && c in s'.composites && k in s'.composites[c].holderUuids && k in s'.composites[c].tokens
    && var u := s'.composites[c].holderUuids[k];
      && u in Holders(s'.t, k) && u !in Holders(s.t, k)
      && var h := Holders(s'.t, k)[u];
        && h.ws == ws && h.token == s'.composites[c].tokens[k] && h.composite == Some(c)
        && ManyUntil(req.ttl, s.lockExpiresAfter, env.clock(u), h.expiresAt)
  }

  ghost predicate ToldAll(s: State, s': State, ws: Ws, req: ManyReq, env: Env, c: Uuid, ks: KeyList) {
    && c !in s.composites && c in s'.composites && s'.composites == s.composites[c := s'.composites[c]]
    && s'.composites[c].keys == ks
    && Sends(s, s', env, ManyGranted(ws, req.uuid, ks, c, s'.composites[c].tokens))
    && (forall k :: k in ks ==> HoldsMember(s, s', ws, req, env, c, k))
    && forall k :: Queue(s'.t, k) == Queue(s.t, k)
  }

  /** The `i`-th key is the first that is full; the request is told so, and waits there if it was to wait. */
  ghost predicate ToldStopped(s: State, s': State, ws: Ws, req: ManyReq, env: Env, c: Uuid, ks: KeyList, i: nat) {
    && i < |ks| && Full(s.t, ks[i]) && (forall j :: 0 <= j < i ==> !Full(s.t, ks[j]))
    && Sends(s, s', env, ManyRefused(ws, req.uuid, ks, ks[i], |Queue(s'.t, ks[i])|))
    && (forall k :: Holders(s'.t, k) == Holders(s.t, k))
    && s'.composites == s.composites && s'.t.deadlines == s.t.deadlines
    && (forall k :: k != ks[i] ==> Queue(s'.t, k) == Queue(s.t, k))
    && if req.wait && !Contains(Queue(s.t, ks[i]), req.uuid)
       then (exists ttl :: ManyUntil(req.ttl, s.lockExpiresAfter, 0, ttl)
               && Queue(s'.t, ks[i]) == Queue(s.t, ks[i]) + [Waiter(ws, req.uuid, ttl, Some(CompositeAsk(ks, c)))])
       else Queue(s'.t, ks[i]) == Queue(s.t, ks[i])
  }

  /** The walk stops at the first full key. */
  lemma {:induction false} FirstFull(t: Table, ks: seq<Key>, ws: Ws, ttl: Millis, lockUuid: Uuid, env: Env)
    requires Distinct(ks)
    ensures var a := TryKeys(t, ks, ws, ttl, lockUuid, env);
      && a.done <= |ks| && (forall j :: 0 <= j < a.done ==> !Full(t, ks[j]))
      && (a.contended.Some? <==> a.done < |ks|)
      && (a.done < |ks| ==> a.contended == Some(ks[a.done]) && Full(t, ks[a.done]))
    decreases |ks|
  {
    if ks != [] && !Full(t, ks[0]) {
      var t1 := GrantMember(t, ks[0], ws, ttl, lockUuid, env);
      FirstFull(t1, ks[1..], ws, ttl, lockUuid, env);
      forall j | 0 < j < |ks| ensures Full(t1, ks[j]) <==> Full(t, ks[j]) {
        GrantMemberAtKey(t, ks[0], ws, ttl, lockUuid, env, ks[j]);
      }
    }
  }

  /** The waiter of a multi-key request. */
  ghost predicate WaiterOf(s: State, ws: Ws, req: ManyReq, w: Waiter) {
    && w.ws == ws && w.uuid == req.uuid && ManyUntil(req.ttl, s.lockExpiresAfter, 0, w.ttl)
    && w.composite.Some? && w.composite.value.lockUuid == Minted(s.t.minted)
    && Names(req.keys, w.composite.value.allKeys)
  }

  lemma AcquireAsks(s: State, ws: Ws, req: ManyReq, env: Env) returns (w: Waiter)
    requires GoodKeys(req.keys)
    ensures WaiterOf(s, ws, req, w) && AcquireMany(s, ws, req, env) == AskMany(DrawOne(s), w, req.wait, env)
  {
    GoodOrBad(req.keys);
    var ks := RequestedKeys(req.keys.entries);
    SortedKeysSorted(req.keys.entries);
    w := Waiter(ws, req.uuid, ManyTtl(s, req.ttl), Some(CompositeAsk(ks, Minted(s.t.minted))));
  }

  /** A multi-key request on good keys is answered once. It is granted if and only if none of its keys is full:
      then it holds each, with the token it is told and for the time it asks. Else it is told the first full
      key, holds nothing, and waits there last if it is to wait. */
  lemma AcquireAnswer(s: State, ws: Ws, req: ManyReq, env: Env) returns (ks: KeyList, i: nat)
    requires GoodKeys(req.keys) && Drawn(s.t) && Minted(s.t.minted) !in s.composites
    ensures Names(req.keys, ks)
    ensures var (s', c) := (AcquireMany(s, ws, req, env), Minted(s.t.minted));
      if forall k :: k in ks ==> !Full(s.t, k)
      then ToldAll(s, s', ws, req, env, c, ks) else ToldStopped(s, s', ws, req, env, c, ks, i)
  {
    var w := AcquireAsks(s, ws, req, env);
    ks := w.composite.value.allKeys;
    i := AskStops(s, w, env);
    if i == |ks| { AllTold(s, DrawOne(s), w, req, env); } else { StoppedTold(s, DrawOne(s), w, req, env, i); }
  }

  lemma AskStops(s: State, w: Waiter, env: Env) returns (i: nat)
    requires w.composite.Some?
    ensures var (ks, stop) := (w.composite.value.allKeys, TryAll(DrawOne(s).t, w, env).contended);
      && i <= |ks| && (forall j :: 0 <= j < i ==> !Full(s.t, ks[j]))
      && (i == |ks| <==> stop.None?) && (i < |ks| ==> stop == Some(ks[i]) && Full(s.t, ks[i]))
      && ((forall k :: k in ks ==> !Full(s.t, k)) <==> i == |ks|)
  {
    var s1, ask := DrawOne(s), w.composite.value;
    FirstFull(s1.t, ask.allKeys, w.ws, w.ttl, ask.lockUuid, env);
    i := TryKeys(s1.t, ask.allKeys, w.ws, w.ttl, ask.lockUuid, env).done;
    assert forall k :: Full(s1.t, k) <==> Full(s.t, k);
    if i < |ask.allKeys| { assert ask.allKeys[i] in ask.allKeys; }
  }

  lemma AllTold(s: State, s1: State, w: Waiter, req: ManyReq, env: Env)
    requires s1 == DrawOne(s) && Drawn(s.t) && w.composite.Some? && TryAll(s1.t, w, env).contended.None?
    requires w.uuid == req.uuid && w.composite.value.lockUuid !in s.composites
    requires ManyUntil(req.ttl, s.lockExpiresAfter, 0, w.ttl)
    ensures var ask := w.composite.value;
      ToldAll(s, AskMany(s1, w, req.wait, env), w.ws, req, env, ask.lockUuid, ask.allKeys)
  {
    var s', ask := AskMany(s1, w, req.wait, env), w.composite.value;
    forall k | k in ask.allKeys ensures HoldsMember(s, s', w.ws, req, env, ask.lockUuid, k) {
      CompositeAtKey(s1.t, w, env, k);
      assert Holders(s1.t, k) == Holders(s.t, k);
    }
    forall k ensures Queue(s'.t, k) == Queue(s.t, k) {
      CompositeAtKey(s1.t, w, env, k);
      assert Queue(s1.t, k) == Queue(s.t, k);
    }
  }

  lemma StoppedTold(s: State, s1: State, w: Waiter, req: ManyReq, env: Env, i: nat)
    requires s1 == DrawOne(s) && Drawn(s.t) && w.composite.Some?
    requires w.uuid == req.uuid && ManyUntil(req.ttl, s.lockExpiresAfter, 0, w.ttl)
    requires var ks := w.composite.value.allKeys;
      && i < |ks| && TryAll(s1.t, w, env).contended == Some(ks[i]) && Full(s.t, ks[i])
      && forall j :: 0 <= j < i ==> !Full(s.t, ks[j])
    ensures var ask := w.composite.value;
      ToldStopped(s, AskMany(s1, w, req.wait, env), w.ws, req, env, ask.lockUuid, ask.allKeys, i)
  {
    var a, ask, s' := TryAll(s1.t, w, env), w.composite.value, AskMany(s1, w, req.wait, env);
    assert Drawn(s1.t) by { assert forall k :: Holders(s1.t, k) == Holders(s.t, k); }
    FailedStop(s1.t, w, env);
    FailedDeadlines(s1.t, w, env);
    forall k ensures Holders(a.t, k) == Holders(s.t, k) && Queue(a.t, k) == Queue(s.t, k) {
      FailedAtKey(s1.t, w, env, k);
      assert Holders(s1.t, k) == Holders(s.t, k) && Queue(s1.t, k) == Queue(s.t, k);
    }
    assert s'.t == if req.wait then Enqueue(a.t, ask.allKeys[i], w) else a.t;
    EnqueuedLast(a.t, ask.allKeys[i], w);
  }

  lemma EnqueuedLast(t: Table, k: Key, w: Waiter)
    requires k in t.locks
    ensures var t' := Enqueue(t, k, w);
      && t'.deadlines == t.deadlines
      && (forall x :: Holders(t', x) == Holders(t, x) && (x != k ==> Queue(t', x) == Queue(t, x)))
      && Queue(t', k) == if Contains(Queue(t, k), w.uuid) then Queue(t, k) else Queue(t, k) + [w]
  {}

  lemma GoodOrBad(raw: RawKeys)
    ensures GoodKeys(raw) <==> !BadKeys(raw)
  {}

  /** Anything but an array of 1 to 64 non-empty strings is refused, and nothing else happens. */
  lemma BadKeysAnswer(s: State, ws: Ws, req: ManyReq, env: Env)
    requires !GoodKeys(req.keys)
    ensures var s' := AcquireMany(s, ws, req, env);
      && s' == s.(out := s'.out, sentAt := s'.sentAt)
      && Sends(s, s', env, ManyErrorFrame(ws, req.uuid))
  {
    GoodOrBad(req.keys);
  }

  // ----- The place in a queue -----

  /** A request that waits stands in the queue once: first when it is forced, or a retry that did not
      stand there; last when it is neither and did not; where it stood otherwise. The others keep their
      order. */
  lemma JoinPlaces(t: Table, ws: Ws, req: LockReq, ttl: Millis)
    requires req.key in t.locks && QueuesDistinct(t)
    ensures var (q, q') := (Queue(t, req.key), Queue(JoinQueue(t, ws, req, ttl), req.key));
      && q' != [] && (forall i, j :: 0 <= i < j < |q'| ==> q'[i].uuid != q'[j].uuid)
      && (req.force || (req.retry && !Contains(q, req.uuid)) ==> q'[0] == Waiter(ws, req.uuid, ttl, None))
      && (!req.force && !req.retry && !Contains(q, req.uuid) ==> q'[|q'| - 1] == Waiter(ws, req.uuid, ttl, None))
      && (!req.force && Contains(q, req.uuid) ==> q' == q)
      && (forall w: Waiter, v: Waiter :: w.uuid != req.uuid && v.uuid != req.uuid && Precedes(q, w, v) ==>
           Precedes(q', w, v))
  {
    JoinQueueJoins(t, ws, req, ttl);
    JoinedContains(t, ws, req, ttl);
    forall w: Waiter, v: Waiter | w.uuid != req.uuid && v.uuid != req.uuid && Precedes(Queue(t, req.key), w, v)
      ensures Precedes(Queue(JoinQueue(t, ws, req, ttl), req.key), w, v)
    {
      OthersOrdered(t, ws, req, ttl, w, v);
    }
  }

  lemma OthersOrdered(t: Table, ws: Ws, req: LockReq, ttl: Millis, w: Waiter, v: Waiter)
    requires req.key in t.locks && w.uuid != req.uuid && v.uuid != req.uuid && Precedes(Queue(t, req.key), w, v)
    ensures Precedes(Queue(JoinQueue(t, ws, req, ttl), req.key), w, v)
  {
    var q: seq<Waiter>, y: Waiter := Queue(t, req.key), Waiter(ws, req.uuid, ttl, None);
    if req.force {
      RemoveAllOrdered(q, {req.uuid}, w, v);
      PrecedesCons(y, Remove(q, req.uuid), w, v);
    } else if !Contains(q, req.uuid) {
      if req.retry { PrecedesCons(y, q, w, v); } else { Queues.AppendOrdered(q, y, w, v); }
    }
  }
}

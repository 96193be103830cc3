/** The broker itself: its maps and queues, updated in place, method by method. Each method is
    proved to do what the step function of the same name says. */
module Brokers {
  import opened BrokerTypes
  import opened BrokerSpec
  import opened Attempts
  import opened BrokerSteps
  import opened Events
  import opened Visiting

  class Broker1 {
    var locks: map<Key, LockObj>
    var holderDeadlines: map<Uuid, Row>
    var compositeLocks: map<Uuid, Composite>
    var wsToUUIDs: map<Ws, set<Uuid>>
    var lmxClosed: set<Ws>
    var lockCounts: nat
    const lockExpiresAfter: Pos
    var fence: Fence
    /** How many uuids were drawn, what was written to sockets, and the journal. */
    var minted: nat
    var out: seq<Frame>
    ghost var sentAt: seq<nat>
    ghost var journal: seq<Note>

    ghost function Tbl(): Table
      reads this
    {
      Table(locks, holderDeadlines, minted, fence, journal)
    }

    ghost function St(): State
      reads this
    {
      State(Tbl(), compositeLocks, out, sentAt, wsToUUIDs, lmxClosed, lockCounts, lockExpiresAfter)
    }

    constructor (fence: Fence, lockExpiresAfter: Pos)
      ensures St() == Start(fence, lockExpiresAfter)
    {
      locks, holderDeadlines, compositeLocks, wsToUUIDs, lmxClosed, lockCounts := map[], map[], map[], map[], {}, 0;
      this.lockExpiresAfter := lockExpiresAfter;
      this.fence, minted, out, sentAt := fence, 0, [], [];
      journal := if fence.durable.Some? then [Wrote(fence.durable.value)] else [];
    }

    method SendFrame(f: Frame, env: Env)
      modifies `out, `sentAt
      ensures St() == Send(old(St()), env, f)
    {
      if f.to in env.live {
        out := out + [f];
        sentAt := sentAt + [|journal|];
      }
    }

    // ----- Lock objects and grants -----

    /** persistFencingWatermark: the durable cell, when there is one. */
    method PersistWatermark(value: int)
      requires fence.hardened && value > fence.watermark
      modifies `fence, `journal
      ensures fence == old(fence).(durable := if old(fence).durable.Some? then Some(value) else None)
      ensures journal == old(journal) + Writes(old(fence), value)
    {
      if fence.durable.Some? {
        fence := fence.(durable := Some(value));
        journal := journal + [Wrote(value)];
      }
    }

    /** A value above the watermark is written first; then the watermark advances. */
    method RaiseWatermark(value: int)
      modifies `fence, `journal
      ensures fence == Raised(old(fence), value) && journal == old(journal) + Writes(old(fence), value)
    {
      if fence.hardened && value > fence.watermark {
        PersistWatermark(value);
        fence := fence.(watermark := value);
      }
    }

    /** getDefaultLockObject, and putting the new object into the map. */
    method AddLockObject(key: Key, max: Pos, env: Env)
      requires key !in locks
      modifies `locks, `fence, `journal
      ensures Tbl() == Materialize(old(Tbl()), key, max, env)
    {
      var seed := Seed(fence, env.now);
      RaiseWatermark(seed);
      locks := locks[key := DefaultLockObj(seed, max)];
    }

    method ScheduleDeadline(key: Key, holder: Uuid, ttl: Millis, env: Env) returns (expiresAt: Millis)
      modifies `holderDeadlines
      ensures expiresAt == Deadline(env, holder, ttl)
      ensures holderDeadlines == if expiresAt.Finite?
        then old(holderDeadlines)[holder := Row(key, expiresAt.n)] else old(holderDeadlines)
    {
      expiresAt := if ttl.Infinity? then Infinity else Finite(env.clock(holder) + ttl.n);
      if expiresAt.Finite? {
        holderDeadlines := holderDeadlines[holder := Row(key, expiresAt.n)];
      }
    }

    /** The counter goes up, and the holder is installed with what it now reads. */
    method GrantLock(key: Key, ws: Ws, uuid: Uuid, ttl: Millis, composite: Option<Uuid>, env: Env) returns (token: int)
      requires key in locks
      modifies `locks, `holderDeadlines, `fence, `journal
      ensures Tbl() == Grant(old(Tbl()), key, uuid, ws, ttl, composite, env)
      ensures token == TokenOf(Tbl(), key)
    {
      token := locks[key].nextToken + 1;
      RaiseWatermark(token);
      locks := locks[key := locks[key].(nextToken := token)];
      var expiresAt := ScheduleDeadline(key, uuid, ttl, env);
      var holder := Holder(ws, token, composite, expiresAt);
      locks := locks[key := locks[key].(holders := locks[key].holders[uuid := holder])];
      journal := journal + [Took(Mint(key, token), |locks[key].holders|, locks[key].maxEver)];
    }

    // ----- Multi-key attempts -----

    /** Grant one member key to a newly drawn holder. */
    method GrantMemberKey(k: Key, ws: Ws, ttl: Millis, lockUuid: Uuid, env: Env) returns (holder: Uuid, token: int)
      modifies `locks, `holderDeadlines, `fence, `journal, `minted
      ensures Tbl() == GrantMember(old(Tbl()), k, ws, ttl, lockUuid, env)
      ensures holder == Minted(old(minted)) && token == TokenOf(Tbl(), k)
    {
      if k !in locks {
        AddLockObject(k, 1, env);
      }
      holder := Minted(minted);
      minted := minted + 1;
      locks := locks[k := locks[k].(emptiedAt := None)];
      token := GrantLock(k, ws, holder, ttl, Some(lockUuid), env);
    }

    /** Walk the keys, granting each to a new holder, up to the first full one. */
    method GrantKeys(keys: KeyList, ws: Ws, ttl: Millis, lockUuid: Uuid, env: Env)
      returns (done: nat, holderUuids: map<Key, Uuid>, tokens: map<Key, int>, contended: Option<Key>)
      modifies `locks, `holderDeadlines, `fence, `journal, `minted
      ensures Attempt(Tbl(), done, holderUuids, tokens, contended) == TryKeys(old(Tbl()), keys, ws, ttl, lockUuid, env)
      ensures done <= |keys|
    {
      holderUuids, tokens, contended, done := map[], map[], None, 0;
      ghost var whole := Walk(Tbl(), keys, 0, map[], map[], ws, ttl, lockUuid, env);
      WalkTries(Tbl(), keys, ws, ttl, lockUuid, env);
      while done < |keys|
        invariant done <= |keys| && Walk(Tbl(), keys, done, holderUuids, tokens, ws, ttl, lockUuid, env) == whole
      {
        var k := keys[done];
        if k in locks && |locks[k].holders| >= locks[k].max {
          contended := Some(k);
          break;
        }
        var holder, token := GrantMemberKey(k, ws, ttl, lockUuid, env);
        holderUuids, tokens := holderUuids[k := holder], tokens[k := token];
        done := done + 1;
      }
    }

    /** Take back what a stopped walk granted. */
    method TakeBack(keys: KeyList, done: nat, holderUuids: map<Key, Uuid>)
      requires done <= |keys| && (forall i :: 0 <= i < |keys| ==> (keys[i] in holderUuids <==> i < done))
      modifies `locks, `holderDeadlines
      ensures Tbl() == Rollback(old(Tbl()), keys, holderUuids)
    {
      assert keys[0..] == keys;
      for i := 0 to done
        invariant Rollback(Tbl(), keys[i..], holderUuids) == Rollback(old(Tbl()), keys, holderUuids)
      {
        var k := keys[i];
        assert keys[i..][1..] == keys[i + 1..];
        ghost var t := Tbl();
        holderDeadlines := holderDeadlines - {holderUuids[k]};
        if k in locks {
          locks := locks[k := locks[k].(holders := locks[k].holders - {holderUuids[k]})];
        }
        assert Tbl() == Drop(t, k, holderUuids[k]);
      }
      RollbackNone(Tbl(), keys[done..], holderUuids);
    }

    // ----- Serving a queue -----

    /** Dequeue until a waiter with a writable socket turns up, or there is nobody left. */
    method DequeueWritable(key: Key, env: Env) returns (n: Waiter)
      requires key in locks && locks[key].notify != []
      modifies `locks
      ensures (n, Queue(Tbl(), key)) == NextWaiter(old(locks[key].notify), env.live)
      ensures key in locks && Tbl() == SetQueue(old(Tbl()), key, locks[key].notify)
    {
      ghost var q := locks[key].notify;
      n := locks[key].notify[0];
      locks := locks[key := locks[key].(notify := locks[key].notify[1..])];
      assert [n] + locks[key].notify == q;
      while n.ws !in env.live && locks[key].notify != []
        invariant key in locks && Tbl() == SetQueue(old(Tbl()), key, locks[key].notify)
        invariant NextWaiter([n] + locks[key].notify, env.live) == NextWaiter(q, env.live)
        decreases |locks[key].notify|
      {
        ghost var rest := locks[key].notify;
        assert ([n] + rest)[1..] == rest;
        n := locks[key].notify[0];
        locks := locks[key := locks[key].(notify := locks[key].notify[1..])];
        assert [n] + locks[key].notify == rest;
      }
      assert ([n] + locks[key].notify)[1..] == locks[key].notify;
    }

    /** Put a waiter at the back of a queue, unless its uuid is there. */
    method QueueOn(key: Key, n: Waiter)
      requires key in locks
      modifies `locks
      ensures Tbl() == Enqueue(old(Tbl()), key, n)
    {
      if !Contains(locks[key].notify, n.uuid) {
        locks := locks[key := locks[key].(notify := locks[key].notify + [n])];
      }
    }

    method RegisterComposite(n: Waiter, holderUuids: map<Key, Uuid>, tokens: map<Key, int>, env: Env)
      requires n.composite.Some?
      modifies `compositeLocks, `out, `sentAt
      ensures St() == Announce(old(St()), n, Attempt(Tbl(), 0, holderUuids, tokens, None), env)
    {
      var ask := n.composite.value;
      compositeLocks := compositeLocks[ask.lockUuid := Composite(ask.allKeys, holderUuids, tokens)];
      SendFrame(ManyGranted(n.ws, n.uuid, ask.allKeys, ask.lockUuid, tokens), env);
    }

    /** Try all of a waiter's keys; when stopped, take back and name the key that stopped it. */
    method TryWaiter(n: Waiter, env: Env)
      returns (holderUuids: map<Key, Uuid>, tokens: map<Key, int>, contended: Option<Key>)
      requires n.composite.Some?
      modifies `locks, `holderDeadlines, `fence, `journal, `minted
      ensures var a := TryAll(old(Tbl()), n, env);
        Tbl() == a.t && holderUuids == a.us && tokens == a.toks && contended == a.contended
      ensures contended.Some? ==> contended.value in locks
    {
      ghost var t := Tbl();
      var ask, done := n.composite.value, 0;
      done, holderUuids, tokens, contended := GrantKeys(ask.allKeys, n.ws, n.ttl, ask.lockUuid, env);
      if contended.Some? {
        TryKeysPrefix(t, ask.allKeys, n.ws, n.ttl, ask.lockUuid, env);
        TakeBack(ask.allKeys, done, holderUuids);
        FailedStopAny(t, n, env);
      }
    }

    method TryGrantAcquireManyFromQueue(n: Waiter, env: Env)
      requires n.composite.Some?
      modifies this
      ensures St() == RetryMany(old(St()), n, env)
    {
      var holderUuids, tokens, contended := TryWaiter(n, env);
      if contended.Some? {
        QueueOn(contended.value, n);
        return;
      }
      RegisterComposite(n, holderUuids, tokens, env);
    }

    method GrantWaiter(key: Key, n: Waiter, env: Env)
      requires key in locks
      modifies this
      ensures St() == GrantQueued(old(St()), key, n, env)
    {
      var token := GrantLock(key, n.ws, n.uuid, n.ttl, None, env);
      SendFrame(LockFrame(n.ws, n.uuid, key, |locks[key].notify|, true, Some(token)), env);
    }

    method EnsureNewLockHolder(key: Key, gone: Option<Uuid>, env: Env)
      requires key in locks
      modifies this
      ensures St() == BrokerSteps.EnsureNewLockHolder(old(St()), key, gone, env)
    {
      if gone.Some? {
        holderDeadlines := holderDeadlines - {gone.value};
        locks := locks[key := locks[key].(holders := locks[key].holders - {gone.value})];
      }
      ghost var s := St();
      assert s == old(St()).(t := DropGone(old(Tbl()), key, gone));
      if |locks[key].holders| < 1 && |locks[key].notify| < 1 {
        locks := locks[key := locks[key].(emptiedAt := Some(env.now))];
        return;
      }
      DrainQueue(key, env);
    }

    /** The drain loop of ensureNewLockHolder. */
    method DrainQueue(key: Key, env: Env)
      requires key in locks
      modifies this
      ensures St() == Drain(old(St()), key, env)
    {
      ghost var s := St();
      while |locks[key].notify| > 0
        invariant key in locks && Drain(St(), key, env) == Drain(s, key, env)
        decreases |locks[key].notify|
      {
        if |locks[key].holders| >= locks[key].max {
          break;
        }
        ghost var before := St();
        var n := DequeueWritable(key, env);
        if |locks[key].holders| >= locks[key].max {
          // The source puts the waiter back here; dequeuing does not change the holders.
          assert false;
        }
        if n.composite.Some? {
          TryGrantAcquireManyFromQueue(n, env);
        } else {
          GrantWaiter(key, n, env);
        }
        assert St() == ServeNext(before, key, env);
        ServeNextKeeps(before, key, env);
      }
    }

    // ----- lock -----

    /** Delete the lock objects that have been idle for two seconds. */
    method CleanUpLocks(env: Env)
      modifies `locks, `lockCounts
      ensures Tbl() == BrokerSteps.CleanUpLocks(old(Tbl()), env.now) && lockCounts == 0
    {
      lockCounts := 0;
      var pending := locks.Keys;
      while pending != {}
        invariant lockCounts == 0 && pending <= locks.Keys <= old(locks).Keys
        invariant forall k :: k in old(locks) ==>
          (k in locks <==> k in pending || !Idle(old(locks)[k], env.now)) && (k in locks ==> locks[k] == old(locks)[k])
        decreases |pending|
      {
        var k :| k in pending;
        pending := pending - {k};
        if Idle(locks[k], env.now) {
          locks := locks - {k};
        }
      }
      assert locks == BrokerSteps.CleanUpLocks(old(Tbl()), env.now).locks;
    }

    /** Note that the key is in use, look for idle keys every fourth time, and note the uuid. */
    method RegisterRequest(ws: Ws, req: LockReq, env: Env)
      modifies `locks, `lockCounts, `wsToUUIDs
      ensures St() == Register(old(St()), ws, req, env)
    {
      if req.key in locks {
        locks := locks[req.key := locks[req.key].(emptiedAt := None)];
      }
      assert Tbl() == InUse(old(Tbl()), req.key);
      lockCounts := lockCounts + 1;
      if lockCounts > 3 {
        CleanUpLocks(env);
      }
      if ws !in wsToUUIDs {
        wsToUUIDs := wsToUUIDs[ws := {}];
      }
      wsToUUIDs := wsToUUIDs[ws := wsToUUIDs[ws] + {req.uuid}];
    }

    /** validateMaxField. */
    method ValidateMaxField(ws: Ws, req: LockReq, env: Env) returns (ok: bool)
      modifies `out, `sentAt
      ensures ok <==> !BadMax(req.max)
      ensures St() == if ok then old(St()) else Send(old(St()), env, LockErrorFrame(ws, req.uuid, req.key))
    {
      ok := true;
      if req.max.NotInteger? || (req.max.Int? && req.max.n < 1) {
        SendFrame(LockErrorFrame(ws, req.uuid, req.key), env);
        ok := false;
      }
    }

    method QueueRequest(ws: Ws, req: LockReq, ttl: Millis)
      requires req.key in locks
      modifies `locks
      ensures Tbl() == JoinQueue(old(Tbl()), ws, req, ttl)
    {
      var key, w := req.key, Waiter(ws, req.uuid, ttl, None);
      var q := locks[key].notify;
      if req.force {
        locks := locks[key := locks[key].(notify := [w] + Remove(q, req.uuid))];
      } else if !Contains(q, req.uuid) {
        if req.retry {
          locks := locks[key := locks[key].(notify := [w] + q)];
        } else {
          locks := locks[key := locks[key].(notify := q + [w])];
        }
      }
    }

    method Lock(ws: Ws, req: LockReq, env: Env)
      modifies this
      ensures St() == BrokerSteps.Lock(old(St()), ws, req, env)
    {
      var ok := ValidateMaxField(ws, req, env);
      if !ok {
        return;
      }
      var key := req.key;
      ghost var s := St();
      RegisterRequest(ws, req, env);
      var ttl := match req.ttl
        case InfiniteTtl => Infinity
        case MillisTtl(n) => Finite(if n == 0 then lockExpiresAfter else n)
        case _ => Finite(lockExpiresAfter);
      assert ttl == SingleTtl(s, req.ttl);
      if key in locks {
        if req.max.Int? {
          locks := locks[key := locks[key].(max := req.max.n, maxEver := Max(locks[key].maxEver, req.max.n))];
        }
        DecideRequest(ws, req, ttl, env);
        return;
      }
      AddLockObject(key, if req.max.Int? then req.max.n else 1, env);
      GrantRequest(ws, req, ttl, env);
    }

    /** Grant a request at once, and reply. */
    method GrantRequest(ws: Ws, req: LockReq, ttl: Millis, env: Env)
      requires req.key in locks
      modifies this
      ensures St() == GrantNow(old(St()), ws, req, ttl, env)
    {
      var ln := |locks[req.key].notify|;
      var token := GrantLock(req.key, ws, req.uuid, ttl, None, env);
      SendFrame(LockFrame(ws, req.uuid, req.key, ln, true, Some(token)), env);
    }

    method DecideRequest(ws: Ws, req: LockReq, ttl: Millis, env: Env)
      requires req.key in locks
      modifies this
      ensures St() == Decide(old(St()), ws, req, ttl, env)
    {
      var ln := |locks[req.key].notify|;
      if |locks[req.key].holders| >= locks[req.key].max {
        if req.wait {
          QueueRequest(ws, req, ttl);
        }
        SendFrame(LockFrame(ws, req.uuid, req.key, ln, false, None), env);
        return;
      }
      GrantRequest(ws, req, ttl, env);
    }

    // ----- unlock -----

    method Reply(ws: Option<Ws>, req: UnlockReq, count: nat, unlocked: bool, env: Env)
      modifies `out, `sentAt
      ensures St() == ReplyUnlock(old(St()), ws, req, count, unlocked, env)
    {
      if ws.Some? && req.uuid.Some? {
        SendFrame(UnlockFrame(ws.value, req.uuid.value, req.key, count, unlocked), env);
      }
    }

    /** Every holder of the key goes, and is remembered. */
    method WipeHolders(key: Key)
      requires key in locks
      modifies `locks, `holderDeadlines
      ensures Tbl() == Wipe(old(Tbl()), key)
    {
      ghost var o := locks[key];
      var pending := locks[key].holders.Keys;
      ghost var gone: set<Uuid> := {};
      assert o.released + gone == o.released;
      while pending != {}
        invariant key in locks && gone + pending == o.holders.Keys
        invariant locks == old(locks)[key := o.(released := o.released + gone)]
        invariant holderDeadlines == old(holderDeadlines) - gone
        decreases |pending|
      {
        var u :| u in pending;
        pending, gone := pending - {u}, gone + {u};
        locks := locks[key := locks[key].(released := locks[key].released + {u})];
        holderDeadlines := holderDeadlines - {u};
        assert locks[key] == o.(released := o.released + gone);
      }
      locks := locks[key := locks[key].(holders := map[])];
      assert gone == o.holders.Keys;
    }

    method RemoveHolder(key: Key, u: Uuid)
      requires key in locks
      modifies `locks, `holderDeadlines
      ensures Tbl() == Release(old(Tbl()), key, u)
    {
      holderDeadlines := holderDeadlines - {u};
      locks := locks[key := locks[key].(holders := locks[key].holders - {u}, released := locks[key].released + {u})];
    }

    method Unlock(ws: Option<Ws>, req: UnlockReq, env: Env)
      modifies this
      ensures St() == BrokerSteps.Unlock(old(St()), ws, req, env)
    {
      if ws.Some? && req.target.Some? && ws.value in wsToUUIDs {
        wsToUUIDs := wsToUUIDs[ws.value := wsToUUIDs[ws.value] - {req.target.value}];
      }
      ghost var s0 := St();
      assert s0 == Forget(old(St()), ws, req.target);
      if req.key !in locks {
        Reply(ws, req, 0, true, env);
        return;
      }
      var ln := |locks[req.key].notify|;
      var freed := FreeForUnlock(req);
      Reply(ws, req, ln, freed, env);
      if freed {
        EnsureNewLockHolder(req.key, req.target, env);
      }
    }

    /** What the request frees: the holder it names; with `force` and no name, all of them; or the
        memory of a hold already gone. Nothing, when it is refused. */
    method FreeForUnlock(req: UnlockReq) returns (freed: bool)
      requires req.key in locks
      modifies `locks, `holderDeadlines
      ensures freed <==> Freeing(old(Tbl()), req).Some?
      ensures Tbl() == if freed then Freeing(old(Tbl()), req).value else old(Tbl())
      ensures req.key in locks
    {
      var key := req.key;
      var same := req.target.Some? && req.target.value in locks[key].holders;
      if same || req.force {
        var wasHolder := false;
        if same {
          RemoveHolder(key, req.target.value);
          wasHolder := true;
        }
        if req.force {
          if req.target.None? {
            WipeHolders(key);
          } else if !wasHolder {
            return false;
          }
        }
        return true;
      }
      if req.target.Some? && req.target.value in locks[key].timedOut + locks[key].released {
        var o, u := locks[key], req.target.value;
        locks := locks[key := o.(timedOut := o.timedOut - {u}, released := o.released - {u})];
        return true;
      }
      return false;
    }

    // ----- acquire-many and release-many -----

    method ValidateKeys(raw: RawKeys) returns (ok: bool)
      ensures ok <==> !BadKeys(raw)
    {
      if raw.NotArray? || |raw.entries| == 0 || |raw.entries| > 64 {
        return false;
      }
      for i := 0 to |raw.entries|
        invariant forall j :: 0 <= j < i ==> raw.entries[j].Str? && raw.entries[j].key.name != []
      {
        if raw.entries[i].NotString? || raw.entries[i].key.name == [] {
          return false;
        }
      }
      ok := true;
    }

    method AcquireMany(ws: Ws, req: ManyReq, env: Env)
      modifies this
      ensures St() == BrokerSteps.AcquireMany(old(St()), ws, req, env)
    {
      var ok := ValidateKeys(req.keys);
      if !ok {
        SendFrame(ManyErrorFrame(ws, req.uuid), env);
        return;
      }
      ghost var s := St();
      var ttl := match req.ttl
        case NullTtl => Infinity
        case MillisTtl(n) => Finite(if n > 0 then n else lockExpiresAfter)
        case _ => Finite(lockExpiresAfter);
      assert ttl == ManyTtl(s, req.ttl);
      var keys := RequestedKeys(req.keys.entries);
      var lockUuid := Minted(minted);
      minted := minted + 1;
      assert St() == DrawOne(s);
      AskForAll(Waiter(ws, req.uuid, ttl, Some(CompositeAsk(keys, lockUuid))), req.wait, env);
    }

    method AskForAll(n: Waiter, wait: bool, env: Env)
      requires n.composite.Some?
      modifies this
      ensures St() == AskMany(old(St()), n, wait, env)
    {
      var holderUuids, tokens, contended := TryWaiter(n, env);
      if contended.Some? {
        var k := contended.value;
        if wait {
          QueueOn(k, n);
        }
        SendFrame(ManyRefused(n.ws, n.uuid, n.composite.value.allKeys, k, |locks[k].notify|), env);
        return;
      }
      RegisterComposite(n, holderUuids, tokens, env);
    }

    method ReleaseMany(ws: Ws, req: ReleaseReq, env: Env)
      modifies this
      ensures St() == BrokerSteps.ReleaseMany(old(St()), ws, req, env)
    {
      if req.lockUuid.None? || req.lockUuid.value !in compositeLocks {
        SendFrame(ReleaseFrame(ws, req.uuid, false), env);
        return;
      }
      ghost var s := St();
      var composite := compositeLocks[req.lockUuid.value];
      ReleaseAll(composite.keys, composite.holderUuids, env);
      compositeLocks := compositeLocks - {req.lockUuid.value};
      SendFrame(ReleaseFrame(ws, req.uuid, true), env);
    }

    method ReleaseAll(keys: KeyList, holderUuids: map<Key, Uuid>, env: Env)
      modifies this
      ensures St() == ReleaseMembers(old(St()), keys, holderUuids, env)
    {
      assert keys[0..] == keys;
      for i := 0 to |keys|
        invariant ReleaseMembers(St(), keys[i..], holderUuids, env) == ReleaseMembers(old(St()), keys, holderUuids, env)
      {
        var k := keys[i];
        assert keys[i..][1..] == keys[i + 1..];
        if k in holderUuids && k in locks {
          var u := holderUuids[k];
          ghost var s := St();
          holderDeadlines := holderDeadlines - {u};
          var removed := u in locks[k].holders;
          locks := locks[k := locks[k].(holders := locks[k].holders - {u})];
          if removed {
            locks := locks[k := locks[k].(released := locks[k].released + {u})];
          }
          assert St() == s.(t := ReleaseMember(s.t, k, u));
          EnsureNewLockHolder(k, Some(u), env);
        }
      }
    }

    // ----- The sweep -----

    /** tickTtl: which rows it found expired, in the order it went through them, is its own choice. */
    method TickTtl(now: int, env: Env) returns (evicted: nat, ghost expired: seq<(Uuid, Key)>)
      modifies this
      ensures ExpiredRows(old(Tbl()), now, expired) && evicted == |expired|
      ensures St() == Sweep(old(St()), expired, env)
    {
      var rows := SnapshotExpired(now);
      expired := rows;
      assert rows[0..] == rows;
      for i := 0 to |rows|
        invariant Sweep(St(), rows[i..], env) == Sweep(old(St()), rows, env)
      {
        var (u, k) := rows[i];
        assert rows[i..][1..] == rows[i + 1..];
        EvictRow(u, k, env);
      }
      evicted := |rows|;
    }

    method SnapshotExpired(now: int) returns (expired: seq<(Uuid, Key)>)
      ensures ExpiredRows(Tbl(), now, expired)
    {
      expired := [];
      var pending := holderDeadlines.Keys;
      while pending != {}
        invariant pending <= holderDeadlines.Keys && Distinct(expired)
        invariant forall u, k :: (u, k) in expired <==>
          u in holderDeadlines && u !in pending && holderDeadlines[u].key == k && holderDeadlines[u].expiresAt <= now
        decreases |pending|
      {
        var u :| u in pending;
        pending := pending - {u};
        var row := holderDeadlines[u];
        if row.expiresAt <= now {
          expired := expired + [(u, row.key)];
        }
      }
    }

    method EvictRow(u: Uuid, k: Key, env: Env)
      modifies this
      ensures St() == Evict(old(St()), u, k, env)
    {
      holderDeadlines := holderDeadlines - {u};
      if k in locks && u in locks[k].holders {
        locks := locks[k := locks[k].(timedOut := locks[k].timedOut + {u}, holders := locks[k].holders - {u})];
        assert Tbl() == TimeOut(DropRow(old(Tbl()), u), k, u);
        EnsureNewLockHolder(k, Some(u), env);
      }
    }

    // ----- A client gives up -----

    method GiveUp(key: Key, uuid: Uuid)
      modifies `locks
      ensures St() == BrokerSteps.GiveUp(old(St()), key, uuid)
    {
      if key in locks {
        locks := locks[key := locks[key].(notify := Remove(locks[key].notify, uuid))];
      }
    }

    // ----- A socket closes -----

    /** Walk the key map, keys added on the way included. In which order it finds keys and holders
        is its own choice. */
    method CleanupConnection(ws: Ws, env: Env) returns (ghost visits: Visits)
      modifies this
      ensures ws !in old(lmxClosed) ==> FullVisit(Unplugged(old(St()), ws), visits, {}, Leaving(old(St()), ws), ws, env)
      ensures St() == Disconnect(old(St()), ws, visits, env)
    {
      visits := [];
      if ws in lmxClosed {
        return;
      }
      var uuids := Unplug(ws);
      visits := ScrubAll(uuids, ws, env);
    }

    method Unplug(ws: Ws) returns (uuids: set<Uuid>)
      modifies `lmxClosed, `wsToUUIDs
      ensures uuids == Leaving(old(St()), ws) && St() == Unplugged(old(St()), ws)
    {
      lmxClosed := lmxClosed + {ws};
      uuids := if ws in wsToUUIDs then wsToUUIDs[ws] else {};
      wsToUUIDs := wsToUUIDs - {ws};
    }

    method ScrubAll(uuids: set<Uuid>, ws: Ws, env: Env) returns (ghost visits: Visits)
      modifies this
      ensures FullVisit(old(St()), visits, {}, uuids, ws, env)
      ensures St() == ScrubKeys(old(St()), visits, uuids, ws, env)
    {
      visits := [];
      ghost var s0, keys := St(), AllKeys(Tbl());
      AllKeysWithin(Tbl());
      BeginNothing(s0, uuids, ws, env);
      var seen: set<Key> := {};
      while !(locks.Keys <= seen)
        invariant Within(Tbl(), keys) && seen <= keys
        invariant Begun(s0, visits, St(), seen, uuids, ws, env)
        decreases |keys - seen|
      {
        var k :| k in locks && k !in seen;
        ghost var s := St();
        ghost var mine := ScrubOne(k, uuids, ws, env);
        BeginOneMore(s0, visits, s, seen, k, mine, uuids, ws, env);
        ScrubWithin(s, k, uuids, mine, ws, env, keys);
        assert keys - (seen + {k}) == (keys - seen) - {k};
        visits, seen := visits + [(k, mine)], seen + {k};
      }
      BegunEnds(s0, visits, St(), seen, uuids, ws, env);
    }

    /** One key of a closing socket: its queued uuids, then its holders. */
    method ScrubOne(k: Key, uuids: set<Uuid>, ws: Ws, env: Env) returns (ghost mine: seq<Uuid>)
      requires k in locks
      modifies this
      ensures Lists(mine, Owned(old(Tbl()), k, ws))
      ensures St() == ScrubKey(old(St()), k, uuids, mine, ws, env)
    {
      ghost var s := St();
      RemoveWaiters(k, uuids);
      var owned, rows := CollectOwned(locks[k].holders, holderDeadlines, ws);
      holderDeadlines := rows;
      mine := owned;
      assert Owned(s.t, k, ws) == OwnedBy(s.t.locks[k].holders, ws);
      assert Tbl() == ScrubQueue(s.t, k, uuids, ws);
      assert owned[0..] == owned;
      for i := 0 to |owned|
        invariant UnlockOwned(St(), k, owned[i..], ws, env) == ScrubKey(s, k, uuids, owned, ws, env)
      {
        assert owned[i..][1..] == owned[i + 1..];
        Unlock(Some(ws), UnlockReq(k, None, Some(owned[i]), true), env);
      }
    }

    method RemoveWaiters(k: Key, uuids: set<Uuid>)
      requires k in locks
      modifies `locks
      ensures k in locks && Tbl() == SetQueue(old(Tbl()), k, RemoveAll(old(locks[k].notify), uuids))
    {
      var pending := uuids;
      ghost var removed: set<Uuid> := {};
      RemoveNone(locks[k].notify);
      while pending != {}
        invariant removed + pending == uuids
        invariant k in locks && Tbl() == SetQueue(old(Tbl()), k, RemoveAll(old(locks[k].notify), removed))
        decreases |pending|
      {
        var u :| u in pending;
        RemoveOneMore(old(locks[k].notify), removed, u);
        pending, removed := pending - {u}, removed + {u};
        locks := locks[k := locks[k].(notify := Remove(locks[k].notify, u))];
      }
      assert removed == uuids;
    }

    // ----- What arrives -----

    /** One frame, timer or close, with what it turned out to find. Frames from a socket already
        cleaned up are dropped. */
    method Handle(what: Arrival, env: Env) returns (ghost e: Event)
      modifies this
      ensures Causes(what, e) && St() == Step(old(St()), e, env)
      ensures e.TickEvent? ==> ExpiredRows(old(Tbl()), e.now, e.expired)
      ensures e.CloseEvent? && e.ws !in old(lmxClosed) ==>
        FullVisit(Unplugged(old(St()), e.ws), e.visits, {}, Leaving(old(St()), e.ws), e.ws, env)
    {
      match what
      case TimerFires(now) =>
        var evicted;
        ghost var expired;
        evicted, expired := TickTtl(now, env);
        e := TickEvent(now, expired);
      case SocketCloses(ws) =>
        ghost var visits := CleanupConnection(ws, env);
        e := CloseEvent(ws, visits);
      case _ =>
        e := FrameOf(what);
        HandleFrame(what, env);
    }

    method HandleFrame(what: Arrival, env: Env)
      requires !what.TimerFires? && !what.SocketCloses?
      modifies this
      ensures St() == Step(old(St()), FrameOf(what), env)
    {
      match what
      case LockArrives(ws, req) =>
        if ws !in lmxClosed { Lock(ws, req, env); }
      case UnlockArrives(from, req) =>
        if from.None? || from.value !in lmxClosed { Unlock(from, req, env); }
      case AcquireArrives(ws, req) =>
        if ws !in lmxClosed { AcquireMany(ws, req, env); }
      case ReleaseArrives(ws, req) =>
        if ws !in lmxClosed { ReleaseMany(ws, req, env); }
      case GiveUpArrives(ws, key, uuid) =>
        if ws !in lmxClosed { GiveUp(key, uuid); }
    }
  }

  function OwnedBy(h: map<Uuid, Holder>, ws: Ws): set<Uuid> {
    set u | u in h && h[u].ws == ws
  }

  /** A socket's holders, in the order found; their deadline rows go on the way. */
  method CollectOwned(h: map<Uuid, Holder>, rows: map<Uuid, Row>, ws: Ws)
    returns (owned: seq<Uuid>, left: map<Uuid, Row>)
    ensures Lists(owned, OwnedBy(h, ws)) && left == rows - OwnedBy(h, ws)
  {
    owned, left := [], rows;
    var pending := h.Keys;
    ghost var gone: set<Uuid> := {};
    while pending != {}
      invariant pending <= h.Keys && gone !! pending && gone <= OwnedBy(h, ws) <= gone + pending
      invariant Lists(owned, gone) && left == rows - gone
      decreases |pending|
    {
      var u :| u in pending;
      pending := pending - {u};
      if h[u].ws == ws {
        ListsOneMore(owned, gone, u);
        MinusOneMore(rows, gone, u);
        gone := gone + {u};
        owned := owned + [u];
        left := left - {u};
      }
    }
    assert gone == OwnedBy(h, ws);
  }

  lemma ListsOneMore(us: seq<Uuid>, listed: set<Uuid>, u: Uuid)
    requires Lists(us, listed) && u !in listed
    ensures Lists(us + [u], listed + {u})
  {
    forall i, j | 0 <= i < j < |us + [u]| ensures (us + [u])[i] != (us + [u])[j] {
      assert us[i] in us;
    }
  }

  lemma MinusOneMore(rows: map<Uuid, Row>, gone: set<Uuid>, u: Uuid)
    ensures rows - gone - {u} == rows - (gone + {u})
  {}

  datatype Arrival =
    | LockArrives(ws: Ws, lock: LockReq)
    | UnlockArrives(from: Option<Ws>, unlock: UnlockReq)
    | AcquireArrives(ws: Ws, many: ManyReq)
    | ReleaseArrives(ws: Ws, release: ReleaseReq)
    | TimerFires(now: int)
    | SocketCloses(ws: Ws)
    | GiveUpArrives(ws: Ws, key: Key, uuid: Uuid)

  /** What a frame asks for. */
  function FrameOf(what: Arrival): Event
    requires !what.TimerFires? && !what.SocketCloses?
  {
    match what
    case LockArrives(ws, req) => LockEvent(ws, req)
    case UnlockArrives(from, req) => UnlockEvent(from, req)
    case AcquireArrives(ws, req) => AcquireEvent(ws, req)
    case ReleaseArrives(ws, req) => ReleaseEvent(ws, req)
    case GiveUpArrives(ws, key, uuid) => GiveUpEvent(ws, key, uuid)
  }

  /** The step's event is what arrived. */
  predicate Causes(what: Arrival, e: Event) {
    match what
    case TimerFires(now) => e.TickEvent? && e.now == now
    case SocketCloses(ws) => e.CloseEvent? && e.ws == ws
    case _ => e == FrameOf(what)
  }

  lemma ServeNextKeeps(s: State, k: Key, env: Env)
    requires Queue(s.t, k) != [] && !Full(s.t, k) && k in s.t.locks
    ensures var s' := ServeNext(s, k, env);
      k in s'.t.locks && Drain(s', k, env) == Drain(s, k, env) && |s'.t.locks[k].notify| < |s.t.locks[k].notify|
  {
    var (w, rest) := NextWaiter(Queue(s.t, k), env.live);
    var s1 := s.(t := SetQueue(s.t, k, rest));
    if w.composite.Some? { RetryKeepsKey(s1, k, w, env); }
  }

  lemma RetryKeepsKey(s: State, k: Key, w: Waiter, env: Env)
    requires w.composite.Some? && k in s.t.locks
    ensures k in RetryMany(s, w, env).t.locks
  {
    var ask := w.composite.value;
    var a := TryKeys(s.t, ask.allKeys, w.ws, w.ttl, ask.lockUuid, env);
    TryKeysAtKey(s.t, ask.allKeys, w.ws, w.ttl, ask.lockUuid, env, k);
    RollbackAtKey(a.t, ask.allKeys, a.us, k);
  }

  lemma FailedStopAny(t: Table, w: Waiter, env: Env)
    requires w.composite.Some? && TryAll(t, w, env).contended.Some?
    ensures TryAll(t, w, env).contended.value in TryAll(t, w, env).t.locks
  {
    FailedStop(t, w, env);
  }

  /** The keys granted are the first ones. */
  lemma {:induction false} TryKeysPrefix(t: Table, ks: seq<Key>, ws: Ws, ttl: Millis, lockUuid: Uuid, env: Env)
    requires Distinct(ks)
    ensures var a := TryKeys(t, ks, ws, ttl, lockUuid, env);
      a.done <= |ks| && forall i :: 0 <= i < |ks| ==> (ks[i] in a.us <==> i < a.done)
    decreases |ks|
  {
    if ks != [] && !Full(t, ks[0]) {
      var t1 := GrantMember(t, ks[0], ws, ttl, lockUuid, env);
      TryKeysPrefix(t1, ks[1..], ws, ttl, lockUuid, env);
      assert forall i :: 0 < i < |ks| ==> ks[i] == ks[1..][i - 1] && ks[i] != ks[0];
    }
  }

  lemma {:induction false} RollbackNone(t: Table, ks: seq<Key>, us: map<Key, Uuid>)
    requires forall k :: k in ks ==> k !in us
    ensures Rollback(t, ks, us) == t
    decreases |ks|
  {
    if ks != [] { RollbackNone(t, ks[1..], us); }
  }

  /** The walk from the `i`-th key on, with what it has granted before. */
  function Walk(t: Table, keys: KeyList, i: nat, us: map<Key, Uuid>, toks: map<Key, int>, ws: Ws, ttl: Millis,
                lockUuid: Uuid, env: Env): Attempt
    requires i <= |keys|
    decreases |keys| - i
  {
    if i == |keys| then Attempt(t, i, us, toks, None)
    else if Full(t, keys[i]) then Attempt(t, i, us, toks, Some(keys[i]))
    else
      var t1 := GrantMember(t, keys[i], ws, ttl, lockUuid, env);
      var us1, toks1 := us[keys[i] := Minted(t.minted)], toks[keys[i] := TokenOf(t1, keys[i])];
      Walk(t1, keys, i + 1, us1, toks1, ws, ttl, lockUuid, env)
  }

  /** What a walk comes to, from what it has granted and what the rest of it will. */
  function Resume(done: nat, us: map<Key, Uuid>, toks: map<Key, int>, rest: Attempt): Attempt {
    Attempt(rest.t, done + rest.done, us + rest.us, toks + rest.toks, rest.contended)
  }

  lemma ResumeNothing(t: Table, i: nat, us: map<Key, Uuid>, toks: map<Key, int>, contended: Option<Key>)
    ensures Resume(i, us, toks, Attempt(t, 0, map[], map[], contended)) == Attempt(t, i, us, toks, contended)
  {
    assert us + map[] == us && toks + map[] == toks;
  }

  lemma ResumeOne(i: nat, us: map<Key, Uuid>, toks: map<Key, int>, k: Key, u: Uuid, token: int, r: Attempt, a: Attempt)
    requires k !in r.us && k !in r.toks
    requires a == Attempt(r.t, r.done + 1, r.us[k := u], r.toks[k := token], r.contended)
    ensures Resume(i, us, toks, a) == Resume(i + 1, us[k := u], toks[k := token], r)
  {
    assert us + r.us[k := u] == us[k := u] + r.us;
    assert toks + r.toks[k := token] == toks[k := token] + r.toks;
  }

  lemma {:induction false} WalkResumes(t: Table, keys: KeyList, i: nat, us: map<Key, Uuid>, toks: map<Key, int>,
                                       ws: Ws, ttl: Millis, lockUuid: Uuid, env: Env)
    requires i <= |keys|
    ensures Walk(t, keys, i, us, toks, ws, ttl, lockUuid, env)
      == Resume(i, us, toks, TryKeys(t, keys[i..], ws, ttl, lockUuid, env))
    decreases |keys| - i
  {
    if i == |keys| || Full(t, keys[i]) {
      ResumeNothing(t, i, us, toks, if i == |keys| then None else Some(keys[i]));
    } else {
      var k := keys[i];
      var t1 := GrantMember(t, k, ws, ttl, lockUuid, env);
      WalkResumes(t1, keys, i + 1, us[k := Minted(t.minted)], toks[k := TokenOf(t1, k)], ws, ttl, lockUuid, env);
      FirstOfRest(t, t1, keys, i, us, toks, ws, ttl, lockUuid, env);
    }
  }

  lemma FirstOfRest(t: Table, t1: Table, keys: KeyList, i: nat, us: map<Key, Uuid>, toks: map<Key, int>, ws: Ws,
                    ttl: Millis, lockUuid: Uuid, env: Env)
    requires i < |keys| && !Full(t, keys[i]) && t1 == GrantMember(t, keys[i], ws, ttl, lockUuid, env)
    ensures Resume(i, us, toks, TryKeys(t, keys[i..], ws, ttl, lockUuid, env))
         == Resume(i + 1, us[keys[i] := Minted(t.minted)], toks[keys[i] := TokenOf(t1, keys[i])],
                   TryKeys(t1, keys[i + 1..], ws, ttl, lockUuid, env))
  {
    assert keys[i..][1..] == keys[i + 1..] && keys[i] !in keys[i + 1..];
    NotLater(t1, keys[i + 1..], keys[i], ws, ttl, lockUuid, env);
    ResumeOne(i, us, toks, keys[i], Minted(t.minted), TokenOf(t1, keys[i]),
      TryKeys(t1, keys[i + 1..], ws, ttl, lockUuid, env), TryKeys(t, keys[i..], ws, ttl, lockUuid, env));
  }

  lemma NotLater(t: Table, ks: seq<Key>, k: Key, ws: Ws, ttl: Millis, lockUuid: Uuid, env: Env)
    requires Distinct(ks) && k !in ks
    ensures var r := TryKeys(t, ks, ws, ttl, lockUuid, env); k !in r.us && k !in r.toks
  {
    TryKeysAtKey(t, ks, ws, ttl, lockUuid, env, k);
  }

  /** A walk with accumulators is the walk of the specification. */
  lemma WalkTries(t: Table, keys: KeyList, ws: Ws, ttl: Millis, lockUuid: Uuid, env: Env)
    ensures Walk(t, keys, 0, map[], map[], ws, ttl, lockUuid, env) == TryKeys(t, keys, ws, ttl, lockUuid, env)
  {
    assert keys[0..] == keys;
    WalkResumes(t, keys, 0, map[], map[], ws, ttl, lockUuid, env);
    ResumeFromNothing(TryKeys(t, keys, ws, ttl, lockUuid, env));
  }

  lemma ResumeFromNothing(a: Attempt)
    ensures Resume(0, map[], map[], a) == a
  {
    var us: map<Key, Uuid>, toks: map<Key, int> := map[], map[];
    assert us + a.us == a.us && toks + a.toks == a.toks;
  }
}

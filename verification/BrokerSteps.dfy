/** The broker's atomic steps, as functions on its state. */
module BrokerSteps {
  import opened BrokerTypes
  import opened BrokerSpec
  import opened Attempts
  import opened Orders

  // ----- ensureNewLockHolder -----

  /** A composite popped off the queue of `k` while `k` has room is never put back on `k`. */
  lemma RetryLeavesQueue(s: State, k: Key, w: Waiter, env: Env)
    requires w.composite.Some? && !Full(s.t, k)
    ensures Queue(RetryMany(s, w, env).t, k) == Queue(s.t, k)
  {
    var a := TryAll(s.t, w, env);
    TriedKeepsQueue(s.t, k, w, env);
    if a.contended.Some? { EnqueueElsewhere(a.t, a.contended.value, w, k); }
  }

  lemma TriedKeepsQueue(t: Table, k: Key, w: Waiter, env: Env)
    requires w.composite.Some?
    ensures var a := TryAll(t, w, env);
      Queue(a.t, k) == Queue(t, k) && (!Full(t, k) ==> a.contended != Some(k))
  {
    var ask := w.composite.value;
    var a := TryKeys(t, ask.allKeys, w.ws, w.ttl, ask.lockUuid, env);
    TryKeysAtKey(t, ask.allKeys, w.ws, w.ttl, ask.lockUuid, env, k);
    RollbackAtKey(a.t, ask.allKeys, a.us, k);
  }

  lemma EnqueueElsewhere(t: Table, k: Key, w: Waiter, x: Key)
    requires x != k
    ensures Queue(Enqueue(t, k, w), x) == Queue(t, x)
  {}

  /** Serve the waiter at the head of the queue of `k`. */
  function ServeNext(s: State, k: Key, env: Env): (r: State)
    requires Queue(s.t, k) != [] && !Full(s.t, k)
    ensures |Queue(r.t, k)| < |Queue(s.t, k)|
  {
    var (w, rest) := NextWaiter(Queue(s.t, k), env.live);
    var s1 := s.(t := SetQueue(s.t, k, rest));
    if w.composite.Some? then
      RetryLeavesQueue(s1, k, w, env);
      RetryMany(s1, w, env)
    else GrantQueued(s1, k, w, env)
  }

  /** Serve waiters while there is one and the key has room. */
  function Drain(s: State, k: Key, env: Env): State
    decreases |Queue(s.t, k)|
  {
    if Queue(s.t, k) == [] || Full(s.t, k) then s else Drain(ServeNext(s, k, env), k, env)
  }

  function MarkEmptied(t: Table, k: Key, env: Env): Table
    requires k in t.locks
  {
    t.(locks := t.locks[k := t.locks[k].(emptiedAt := Some(env.now))])
  }

  function DropGone(t: Table, k: Key, gone: Option<Uuid>): Table {
    if gone.Some? then Drop(t, k, gone.value) else t
  }

  function EnsureNewLockHolder(s: State, k: Key, gone: Option<Uuid>, env: Env): State
    requires k in s.t.locks
  {
    var t1 := DropGone(s.t, k, gone);
    if Holders(t1, k) == map[] && Queue(t1, k) == [] then s.(t := MarkEmptied(t1, k, env))
    else Drain(s.(t := t1), k, env)
  }

  // ----- lock -----

  predicate BadMax(m: RawMax) {
    m.NotInteger? || (m.Int? && m.n < 1)
  }

  function SingleTtl(s: State, raw: RawTtl): Millis {
    match raw
    case InfiniteTtl => Infinity
    case MillisTtl(n) => Finite(if n == 0 then s.lockExpiresAfter else n)
    case _ => Finite(s.lockExpiresAfter)
  }

  predicate Idle(o: LockObj, now: int) {
    && o.emptiedAt.Some? && o.emptiedAt.value != 0 && now - o.emptiedAt.value >= 2000
    && o.holders == map[] && o.notify == []
  }

  function CleanUpLocks(t: Table, now: int): Table {
    t.(locks := map k | k in t.locks && !Idle(t.locks[k], now) :: t.locks[k])
  }

  function InUse(t: Table, k: Key): Table {
    if k in t.locks then t.(locks := t.locks[k := t.locks[k].(emptiedAt := None)]) else t
  }

  /** The uuids a socket answers for. */
  function Leaving(s: State, ws: Ws): set<Uuid> {
    if ws in s.wsUuids then s.wsUuids[ws] else {}
  }

  /** The bookkeeping of a lock request: the key is in use again, every fourth request deletes
      idle lock objects, and the socket now answers for the uuid. */
  function Register(s: State, ws: Ws, req: LockReq, env: Env): State {
    var t1 := InUse(s.t, req.key);
    var sweep := s.lockCounts + 1 > 3;
    s.(t := if sweep then CleanUpLocks(t1, env.now) else t1,
       lockCounts := if sweep then 0 else s.lockCounts + 1,
       wsUuids := s.wsUuids[ws := Leaving(s, ws) + {req.uuid}])
  }

  function SetMax(t: Table, k: Key, m: RawMax): Table
    requires !BadMax(m)
  {
    if m.Int? && k in t.locks then
      var o := t.locks[k];
      t.(locks := t.locks[k := o.(max := m.n, maxEver := Max(o.maxEver, m.n))])
    else t
  }

  /** A request that cannot be granted now joins the queue: at the front when forced or when it
      is a retry, at the back otherwise, and not twice. */
  function JoinQueue(t: Table, ws: Ws, req: LockReq, ttl: Millis): Table
    requires req.key in t.locks
  {
    var w := Waiter(ws, req.uuid, ttl, None);
    var q := Queue(t, req.key);
    if req.force then SetQueue(t, req.key, [w] + Remove(q, req.uuid))
    else if Contains(q, req.uuid) then t
    else if req.retry then SetQueue(t, req.key, [w] + q)
    else SetQueue(t, req.key, q + [w])
  }

  /** grantLock and its reply, for a request granted at once. */
  function GrantNow(s: State, ws: Ws, req: LockReq, ttl: Millis, env: Env): State
    requires req.key in s.t.locks
  {
    var t1 := Grant(s.t, req.key, req.uuid, ws, ttl, None, env);
    Send(s.(t := t1), env, LockFrame(ws, req.uuid, req.key, |Queue(s.t, req.key)|, true, Some(TokenOf(t1, req.key))))
  }

  /** A request for an existing lock object, its max updated: granted if there is room, else
      queued (or, without waiting, just refused). */
  function Decide(s: State, ws: Ws, req: LockReq, ttl: Millis, env: Env): State
    requires req.key in s.t.locks
  {
    if !Full(s.t, req.key) then GrantNow(s, ws, req, ttl, env)
    else
      var t1 := if req.wait then JoinQueue(s.t, ws, req, ttl) else s.t;
      Send(s.(t := t1), env, LockFrame(ws, req.uuid, req.key, |Queue(s.t, req.key)|, false, None))
  }

  function Lock(s: State, ws: Ws, req: LockReq, env: Env): State {
    if BadMax(req.max) then Send(s, env, LockErrorFrame(ws, req.uuid, req.key))
    else
      var s1 := Register(s, ws, req, env);
      var ttl := SingleTtl(s, req.ttl);
      if req.key in s1.t.locks then Decide(s1.(t := SetMax(s1.t, req.key, req.max)), ws, req, ttl, env)
      else
        GrantNow(s1.(t := Materialize(s1.t, req.key, if req.max.Int? then req.max.n else 1, env)), ws, req, ttl, env)
  }

  // ----- unlock -----

  function Forget(s: State, ws: Option<Ws>, target: Option<Uuid>): State {
    if ws.Some? && target.Some? && ws.value in s.wsUuids
    then s.(wsUuids := s.wsUuids[ws.value := s.wsUuids[ws.value] - {target.value}])
    else s
  }

  function ReplyUnlock(s: State, ws: Option<Ws>, req: UnlockReq, count: nat, unlocked: bool, env: Env): State {
    if ws.Some? && req.uuid.Some?
    then Send(s, env, UnlockFrame(ws.value, req.uuid.value, req.key, count, unlocked))
    else s
  }

  /** Drop holder `u` of `k` and remember that it was released. */
  function Release(t: Table, k: Key, u: Uuid): Table {
    var t1 := Drop(t, k, u);
    if k in t1.locks then t1.(locks := t1.locks[k := t1.locks[k].(released := t1.locks[k].released + {u})]) else t1
  }

  /** Drop every holder of `k`. */
  function Wipe(t: Table, k: Key): Table
    requires k in t.locks
  {
    var o := t.locks[k];
    t.(deadlines := t.deadlines - o.holders.Keys,
       locks := t.locks[k := o.(holders := map[], released := o.released + o.holders.Keys)])
  }

  function ForgetLate(t: Table, k: Key, u: Uuid): Table
    requires k in t.locks
  {
    var o := t.locks[k];
    t.(locks := t.locks[k := o.(timedOut := o.timedOut - {u}, released := o.released - {u})])
  }

  /** What an unlock request does to the key before its queue is served; nothing, when refused. */
  function Freeing(t: Table, req: UnlockReq): Option<Table>
    requires req.key in t.locks
  {
    var o := t.locks[req.key];
    if req.target.Some? && req.target.value in o.holders then Some(Release(t, req.key, req.target.value))
    else if req.force && req.target.None? then Some(Wipe(t, req.key))
    else if req.force then None
    else if req.target.Some? && req.target.value in o.timedOut + o.released
      then Some(ForgetLate(t, req.key, req.target.value))
    else None
  }

  function Unlock(s: State, ws: Option<Ws>, req: UnlockReq, env: Env): State {
    var s0 := Forget(s, ws, req.target);
    if req.key !in s0.t.locks then ReplyUnlock(s0, ws, req, 0, true, env)
    else
      var ln := |Queue(s0.t, req.key)|;
      match Freeing(s0.t, req)
      case Some(t1) => EnsureNewLockHolder(ReplyUnlock(s0.(t := t1), ws, req, ln, true, env), req.key, req.target, env)
      case None => ReplyUnlock(s0, ws, req, ln, false, env)
  }

  // ----- acquire-many -----

  predicate BadKeys(raw: RawKeys) {
    || raw.NotArray?
    || |raw.entries| == 0
    || |raw.entries| > 64
    || exists i :: 0 <= i < |raw.entries| && (raw.entries[i].NotString? || raw.entries[i].key.name == [])
  }

  /** Insert into a sorted list, unless already there. */
  function InsertKey(k: Key, ks: seq<Key>): seq<Key> {
    if ks == [] then [k]
    else if k == ks[0] then ks
    else if Before(k.name, ks[0].name) then [k] + ks
    else [ks[0]] + InsertKey(k, ks[1..])
  }

  /** Without duplicates, in JavaScript's order, by code units. */
  function SortedKeys(entries: seq<RawKey>): seq<Key>
    requires forall i :: 0 <= i < |entries| ==> entries[i].Str?
  {
    if entries == [] then [] else InsertKey(entries[0].key, SortedKeys(entries[1..]))
  }

  ghost predicate Sorted(ks: seq<Key>) {
    forall i, j :: 0 <= i < j < |ks| ==> Before(ks[i].name, ks[j].name)
  }

  lemma {:induction false} InsertKeySorted(k: Key, ks: seq<Key>)
    requires Sorted(ks)
    ensures Sorted(InsertKey(k, ks))
    ensures forall x :: x in InsertKey(k, ks) <==> x == k || x in ks
  {
    if ks != [] && k != ks[0] {
      BeforeTotal(k.name, ks[0].name);
      if Before(k.name, ks[0].name) {
        forall j | 0 < j < |ks| ensures Before(k.name, ks[j].name) {
          BeforeTransitive(k.name, ks[0].name, ks[j].name);
        }
      } else {
        InsertKeySorted(k, ks[1..]);
        assert forall x :: x in ks <==> x == ks[0] || x in ks[1..];
        var r := InsertKey(k, ks[1..]);
        forall j | 0 <= j < |r| ensures Before(ks[0].name, r[j].name) {
          assert r[j] in r;
        }
      }
    }
  }

  /** The keys of a valid request, once each and in increasing order. */
  lemma {:induction false} SortedKeysSorted(entries: seq<RawKey>)
    requires forall i :: 0 <= i < |entries| ==> entries[i].Str?
    ensures Sorted(SortedKeys(entries)) && Distinct(SortedKeys(entries))
    ensures forall k :: k in SortedKeys(entries) <==> Str(k) in entries
  {
    if entries != [] {
      SortedKeysSorted(entries[1..]);
      InsertKeySorted(entries[0].key, SortedKeys(entries[1..]));
      assert forall e :: e in entries <==> e == entries[0] || e in entries[1..];
    }
    var ks := SortedKeys(entries);
    forall i, j | 0 <= i < j < |ks| ensures ks[i] != ks[j] {
      BeforeTotal(ks[i].name, ks[j].name);
    }
  }

  function RequestedKeys(entries: seq<RawKey>): KeyList
    requires forall i :: 0 <= i < |entries| ==> entries[i].Str?
  {
    SortedKeysSorted(entries);
    SortedKeys(entries)
  }

  function ManyTtl(s: State, raw: RawTtl): Millis {
    match raw
    case NullTtl => Infinity
    case MillisTtl(n) => Finite(if n > 0 then n else s.lockExpiresAfter)
    case _ => Finite(s.lockExpiresAfter)
  }

  function DrawOne(s: State): State {
    s.(t := s.t.(minted := s.t.minted + 1))
  }

  /** Ask for all of a waiter's keys at once; when stopped, wait where stopped, or not at all. */
  function AskMany(s: State, w: Waiter, wait: bool, env: Env): State
    requires w.composite.Some?
  {
    var a := TryAll(s.t, w, env);
    if a.contended.None? then Announce(s, w, a, env)
    else
      var c := a.contended.value;
      var t1 := if wait then Enqueue(a.t, c, w) else a.t;
      Send(s.(t := t1), env, ManyRefused(w.ws, w.uuid, w.composite.value.allKeys, c, |Queue(t1, c)|))
  }

  function AcquireMany(s: State, ws: Ws, req: ManyReq, env: Env): State {
    if BadKeys(req.keys) then Send(s, env, ManyErrorFrame(ws, req.uuid))
    else
      var ks := RequestedKeys(req.keys.entries);
      var w := Waiter(ws, req.uuid, ManyTtl(s, req.ttl), Some(CompositeAsk(ks, Minted(s.t.minted))));
      AskMany(DrawOne(s), w, req.wait, env)
  }

  // ----- release-many -----

  /** Drop one member, remembering its release if it was still held. */
  function ReleaseMember(t: Table, k: Key, u: Uuid): Table {
    if u in Holders(t, k) then Release(t, k, u) else Drop(t, k, u)
  }

  /** Release the members of a composite one after another, serving each key's queue. */
  function ReleaseMembers(s: State, ks: seq<Key>, us: map<Key, Uuid>, env: Env): State
    decreases |ks|
  {
    if ks == [] then s
    else
      var k := ks[0];
      var s1 := if k !in us || k !in s.t.locks then s
                else EnsureNewLockHolder(s.(t := ReleaseMember(s.t, k, us[k])), k, Some(us[k]), env);
      ReleaseMembers(s1, ks[1..], us, env)
  }

  function ReleaseMany(s: State, ws: Ws, req: ReleaseReq, env: Env): State {
    if req.lockUuid.None? || req.lockUuid.value !in s.composites then
      Send(s, env, ReleaseFrame(ws, req.uuid, false))
    else
      var c := s.composites[req.lockUuid.value];
      var s1 := ReleaseMembers(s, c.keys, c.holderUuids, env);
      Send(s1.(composites := s1.composites - {req.lockUuid.value}), env, ReleaseFrame(ws, req.uuid, true))
  }

  // ----- tickTtl -----

  function DropRow(t: Table, u: Uuid): Table {
    t.(deadlines := t.deadlines - {u})
  }

  /** Move holder `u` of `k` to the key's timed-out uuids. */
  function TimeOut(t: Table, k: Key, u: Uuid): Table
    requires k in t.locks
  {
    var o := t.locks[k];
    t.(locks := t.locks[k := o.(timedOut := o.timedOut + {u}, holders := o.holders - {u})])
  }

  /** Evict one holder whose deadline row was found expired. */
  function Evict(s: State, u: Uuid, k: Key, env: Env): State {
    if u !in Holders(s.t, k) then s.(t := DropRow(s.t, u))
    else EnsureNewLockHolder(s.(t := TimeOut(DropRow(s.t, u), k, u)), k, Some(u), env)
  }

  /** The rows to evict, in the order the index yields them. */
  function Sweep(s: State, expired: seq<(Uuid, Key)>, env: Env): State
    decreases |expired|
  {
    if expired == [] then s else Sweep(Evict(s, expired[0].0, expired[0].1, env), expired[1..], env)
  }

  /** `expired` lists, in some order, the rows of the index due at `now`. */
  ghost predicate ExpiredRows(t: Table, now: int, expired: seq<(Uuid, Key)>) {
    && Distinct(expired)
    && (forall u, k :: (u, k) in expired <==>
         u in t.deadlines && t.deadlines[u].key == k && t.deadlines[u].expiresAt <= now)
  }

  // ----- cleanupConnection -----

  function Owned(t: Table, k: Key, ws: Ws): set<Uuid> {
    set u | u in Holders(t, k) && Holders(t, k)[u].ws == ws
  }

  function UnlockOwned(s: State, k: Key, us: seq<Uuid>, ws: Ws, env: Env): State
    decreases |us|
  {
    if us == [] then s
    else UnlockOwned(Unlock(s, Some(ws), UnlockReq(k, None, Some(us[0]), true), env), k, us[1..], ws, env)
  }

  /** Take the uuids off the queue, and the rows of the socket's holders off the index. */
  function ScrubQueue(t: Table, k: Key, uuids: set<Uuid>, ws: Ws): Table
    requires k in t.locks
  {
    SetQueue(t, k, RemoveAll(Queue(t, k), uuids)).(deadlines := t.deadlines - Owned(t, k, ws))
  }

  /** Scrub one key of a closing socket: its queued uuids, then its holders. */
  function ScrubKey(s: State, k: Key, uuids: set<Uuid>, owned: seq<Uuid>, ws: Ws, env: Env): State
    requires k in s.t.locks
  {
    UnlockOwned(s.(t := ScrubQueue(s.t, k, uuids, ws)), k, owned, ws, env)
  }

  /** One visit per key: the key, and the socket's holders of it in the order found. */
  type Visits = seq<(Key, seq<Uuid>)>

  function ScrubKeys(s: State, visits: Visits, uuids: set<Uuid>, ws: Ws, env: Env): State
    decreases |visits|
  {
    if visits == [] then s
    else
      var s1 := if visits[0].0 in s.t.locks then ScrubKey(s, visits[0].0, uuids, visits[0].1, ws, env) else s;
      ScrubKeys(s1, visits[1..], uuids, ws, env)
  }

  ghost predicate Lists(us: seq<Uuid>, owned: set<Uuid>) {
    Distinct(us) && forall u :: u in us <==> u in owned
  }

  /** `visits` walks every key of the map once (keys added on the way included), and lists the
      socket's holders of each as they are when the key is reached. */
  ghost predicate FullVisit(s: State, visits: Visits, seen: set<Key>, uuids: set<Uuid>, ws: Ws, env: Env)
    decreases |visits|
  {
    if visits == [] then s.t.locks.Keys <= seen
    else
      var (k, us) := visits[0];
      && k in s.t.locks && k !in seen && Lists(us, Owned(s.t, k, ws))
      && FullVisit(ScrubKey(s, k, uuids, us, ws, env), visits[1..], seen + {k}, uuids, ws, env)
  }

  function Unplugged(s: State, ws: Ws): State {
    s.(closed := s.closed + {ws}, wsUuids := s.wsUuids - {ws})
  }

  function Disconnect(s: State, ws: Ws, visits: Visits, env: Env): State {
    if ws in s.closed then s else ScrubKeys(Unplugged(s, ws), visits, Leaving(s, ws), ws, env)
  }

  // ----- client-side timeout or error -----

  function GiveUp(s: State, k: Key, u: Uuid): State {
    if k in s.t.locks then s.(t := SetQueue(s.t, k, Remove(Queue(s.t, k), u))) else s
  }
}

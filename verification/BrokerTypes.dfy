/** The entities of Broker1: keys, identifiers, holders, waiters, lock objects, and the
    broker's whole state as one value. Reader/writer fields are not modelled. */
module BrokerTypes {

  datatype Option<+T> = None | Some(value: T)

  type Pos = n: nat | n > 0 witness 1

  /** A JavaScript string, as UTF-16 code units. */
  type CodeUnit = n: nat | n < 0x1_0000
  datatype Key = Key(name: seq<CodeUnit>)

  /** A connected socket. */
  type Ws = nat

  /** `Minted(n)` is the n-th identifier the broker itself draws (composite lock uuids and
      composite member holder uuids); `Client(id)` is chosen by a client. Version-4 uuids
      never collide, so the two kinds are disjoint and every minted one is new. */
  datatype Uuid = Client(id: nat) | Minted(n: nat)

  type ClientUuid = u: Uuid | u.Client? witness Client(0)

  /** Milliseconds, or JavaScript's `Infinity`: a ttl, or a wall-clock deadline. */
  datatype Millis = Infinity | Finite(n: int)

  ghost predicate Distinct<T>(s: seq<T>) {
    forall i, j :: 0 <= i < j < |s| ==> s[i] != s[j]
  }

  type KeyList = ks: seq<Key> | Distinct(ks)

  datatype Holder = Holder(ws: Ws, token: int, composite: Option<Uuid>, expiresAt: Millis)

  datatype CompositeAsk = CompositeAsk(allKeys: KeyList, lockUuid: Uuid)

  datatype Waiter = Waiter(ws: Ws, uuid: ClientUuid, ttl: Millis, composite: Option<CompositeAsk>)

  /** `maxEver` is a history variable: the largest `max` this lock object has had. */
  datatype LockObj = LockObj(
    max: Pos,
    maxEver: Pos,
    nextToken: int,
    holders: map<Uuid, Holder>,
    notify: seq<Waiter>,
    timedOut: set<Uuid>,
    released: set<Uuid>,
    emptiedAt: Option<int>)

  /** A row of the deadline index. */
  datatype Row = Row(key: Key, expiresAt: int)

  /** A row of the registry of multi-key grants. */
  datatype Composite = Composite(keys: KeyList, holderUuids: map<Key, Uuid>, tokens: map<Key, int>)

  /** The fencing authority. The base broker seeds a new key's counter from the clock; the
      hardened one from max(clock, floor, watermark), and records every higher value in the
      durable cell (if there is one) before advancing the watermark in memory. */
  datatype Fence = Fence(hardened: bool, floor: nat, watermark: int, durable: Option<int>)

  /** A token taken from a key's counter. */
  datatype Mint = Mint(key: Key, token: int)

  /** History, in the order things happen: a value reaches the durable cell; a token is taken, which
      leaves its key with so many holders, when the largest `max` it has had is `maxEver`. */
  datatype Note =
    | Wrote(value: int)
    | Took(mint: Mint, holders: nat, maxEver: Pos)

  /** The tokens taken, in order. */
  function Taken(journal: seq<Note>): seq<Mint> {
    if journal == [] then []
    else
      var last := journal[|journal| - 1];
      Taken(journal[..|journal| - 1]) + if last.Took? then [last.mint] else []
  }

  /** What the broker writes to a socket. */
  datatype Frame =
    | LockFrame(to: Ws, uuid: Uuid, key: Key, requestCount: nat, acquired: bool, token: Option<int>)
    | LockErrorFrame(to: Ws, uuid: Uuid, key: Key)
    | ManyGranted(to: Ws, uuid: Uuid, keys: KeyList, lockUuid: Uuid, tokens: map<Key, int>)
    | ManyRefused(to: Ws, uuid: Uuid, keys: KeyList, contended: Key, requestCount: nat)
    | ManyErrorFrame(to: Ws, uuid: Uuid)
    | UnlockFrame(to: Ws, uuid: Uuid, key: Key, requestCount: nat, unlocked: bool)
    | ReleaseFrame(to: Ws, uuid: Uuid, released: bool)

  /** The part of the state that grants and releases act on: the lock objects, the deadline
      index, the count of uuids drawn so far, the fencing authority, and the journal. */
  datatype Table = Table(
    locks: map<Key, LockObj>,
    deadlines: map<Uuid, Row>,
    minted: nat,
    fence: Fence,
    journal: seq<Note>)

  /** `sentAt` is history: how long the journal was when each frame of `out` was sent. */
  datatype State = State(
    t: Table,
    composites: map<Uuid, Composite>,
    out: seq<Frame>,
    sentAt: seq<nat>,
    wsUuids: map<Ws, set<Uuid>>,
    closed: set<Ws>,
    lockCounts: nat,
    lockExpiresAfter: Pos)

  /** What one atomic step reads of its surroundings: the wall clock (`clock(u)` is the read
      made while installing holder `u`, `now` any other read) and the writable sockets. */
  datatype Env = Env(now: int, clock: Uuid -> int, live: set<Ws>)

  // ----- Requests -----

  datatype RawMax = Absent | NotInteger | Int(n: int)

  /** A ttl as it arrives: absent, JSON null, Infinity (null after normalisation), or a number. */
  datatype RawTtl = NoTtl | NullTtl | InfiniteTtl | MillisTtl(n: int)

  datatype LockReq = LockReq(key: Key, uuid: ClientUuid, max: RawMax, ttl: RawTtl, force: bool, retry: bool, wait: bool)

  datatype UnlockReq = UnlockReq(key: Key, uuid: Option<Uuid>, target: Option<Uuid>, force: bool)

  /** `keys` need not be an array, and its entries need not be strings. */
  datatype RawKey = NotString | Str(key: Key)
  datatype RawKeys = NotArray | Entries(entries: seq<RawKey>)

  datatype ManyReq = ManyReq(uuid: ClientUuid, keys: RawKeys, ttl: RawTtl, wait: bool)

  datatype ReleaseReq = ReleaseReq(uuid: Uuid, lockUuid: Option<Uuid>)

  // ----- The table seen per key; a key without a lock object is free and unqueued -----

  function Holders(t: Table, k: Key): map<Uuid, Holder> {
    if k in t.locks then t.locks[k].holders else map[]
  }

  function Queue(t: Table, k: Key): seq<Waiter> {
    if k in t.locks then t.locks[k].notify else []
  }

  function MaxOf(t: Table, k: Key): Pos {
    if k in t.locks then t.locks[k].max else 1
  }

  predicate Full(t: Table, k: Key) {
    |Holders(t, k)| >= MaxOf(t, k)
  }

  function Log(t: Table): seq<Mint> {
    Taken(t.journal)
  }
}

/** The watermark of the hardened broker: written to the durable file before it advances, and
    refused at the 53-bit ceiling, which an admitted multi-key request never meets half-way. */
module Hardened {
  import opened BrokerTypes
  import opened BrokerSpec
  import opened BrokerSteps
  import opened Fencing
  import opened FencedRuns
  import opened WatermarkText

  datatype Error = Exhausted | PersistenceFailed | Unreadable

  datatype Result<+T> = Ok(value: T) | Err(error: Error)

  /** The state file: not configured, not there yet, or holding a watermark's text. */
  datatype Cell = Off | Empty | Holds(text: string)

  /** What the file says, when it can be read; an absent file says 0. */
  function Stored(c: Cell): Option<nat> {
    match c
    case Off => Some(0)
    case Empty => Some(0)
    case Holds(text) => Parse(text)
  }

  /** Replacing the file either happens or does not; when it reports an error it may have happened
      all the same, since the directory is synced after the rename. */
  datatype Write = Written | FailedBefore | FailedAfter

  class FencingState {
    const floor: nat
    var watermark: nat
    var cell: Cell
    /** History: the values counters were seeded with, and the tokens taken. */
    ghost var seeds: seq<nat>
    ghost var tokens: seq<nat>

    /** Every token taken is covered by the file, whatever happens next. A file that lags the
        watermark (below a configured floor) was not needed yet. */
    ghost predicate Valid()
      reads this
    {
      && floor <= watermark <= MAX_FENCING_TOKEN && Stored(cell).Some?
      && (forall v :: v in seeds ==> v <= watermark)
      && (forall v :: v in tokens ==> v <= watermark && (cell != Off ==> v <= Stored(cell).value))
      && (cell != Off && Stored(cell).value < watermark ==> tokens == [] && forall v :: v in seeds ==> v == watermark)
    }

    /** What the broker's steps see of it. */
    ghost function AsFence(): Fence
      reads this
      requires Valid()
    {
      Fence(true, floor, watermark, if cell == Off then None else Some(Stored(cell).value))
    }

    /** Start from the file; a file that cannot be read refuses to start. */
    constructor (floor: nat, found: Cell)
      requires floor <= MAX_FENCING_TOKEN && Stored(found).Some?
      ensures Valid() && this.floor == floor && cell == found && seeds == [] && tokens == []
      ensures watermark == Max(floor, Stored(found).value)
    {
      this.floor := floor;
      cell := found;
      watermark := Max(floor, Stored(found).value);
      seeds, tokens := [], [];
    }

    /** persistWatermarkAtomically: afterwards the file reads back as `value`, or is as it was. */
    method Persist(value: nat, write: Write) returns (r: Result<()>)
      requires Valid() && watermark < value <= MAX_FENCING_TOKEN
      modifies `cell
      ensures Valid()
      ensures r == if old(cell) == Off || write.Written? then Ok(()) else Err(PersistenceFailed)
      ensures cell == if old(cell) == Off || write.FailedBefore? then old(cell) else Holds(Text(value))
      ensures r.Ok? && cell != Off ==> Stored(cell) == Some(value)
    {
      if cell == Off {
        return Ok(());
      }
      if write.FailedBefore? {
        return Err(PersistenceFailed);
      }
      ParseInvertsText(Text(value), value);
      cell := Holds(Text(value));
      r := if write.Written? then Ok(()) else Err(PersistenceFailed);
    }

    /** The file first, then the memory. A refused value changes neither the watermark nor the
        history. */
    method Raise(value: nat, write: Write) returns (r: Result<()>)
      requires Valid() && value <= MAX_FENCING_TOKEN
      modifies `cell, `watermark
      ensures Valid()
      ensures r == if value <= old(watermark) || old(cell) == Off || write.Written?
        then Ok(()) else Err(PersistenceFailed)
      ensures r.Ok? ==> AsFence() == Raised(old(AsFence()), value)
      ensures r.Ok? && value > old(watermark) && cell != Off ==> cell == Holds(Text(value))
      ensures value <= old(watermark) ==> cell == old(cell)
      ensures r.Err? ==> watermark == old(watermark)
      ensures (cell == Off) == (old(cell) == Off)
    {
      r := Ok(());
      if value > watermark {
        r := Persist(value, write);
        if r.Ok? {
          watermark := value;
        }
      }
    }

    /** getDefaultLockObject: the counter of a new key starts at the clock, the floor or the
        watermark, whichever is highest. */
    method SeedCounter(now: int, write: Write) returns (r: Result<nat>)
      requires Valid()
      modifies this
      ensures Valid()
      ensures var seed := Max(now, Max(floor, old(watermark)));
        && (seed > MAX_FENCING_TOKEN ==> r == Err(Exhausted))
        && (r.Ok? ==> r.value == seed && seeds == old(seeds) + [seed] && AsFence() == Raised(old(AsFence()), seed))
        && (r.Err? ==> seeds == old(seeds) && watermark == old(watermark))
        && seed == Seed(old(AsFence()), now)
      ensures tokens == old(tokens)
      ensures r.Err? && r.error.Exhausted? ==> cell == old(cell)
    {
      var seed := Max(now, Max(floor, watermark));
      if seed > MAX_FENCING_TOKEN {
        return Err(Exhausted);
      }
      var raised := Raise(seed, write);
      if raised.Err? {
        return Err(raised.error);
      }
      seeds := seeds + [seed];
      r := Ok(seed);
    }

    /** The set trap of a counter, for the `++` of a grant: from `current` to the next token. */
    method NextToken(current: nat, write: Write) returns (r: Result<nat>)
      requires Valid() && (current in seeds || current in tokens)
      modifies this
      ensures Valid()
      ensures r.Ok? <==> current < MAX_FENCING_TOKEN && (current < old(watermark) || old(cell) == Off || write.Written?)
      ensures r.Ok? ==> r.value == current + 1 && tokens == old(tokens) + [current + 1]
      ensures r.Ok? ==> AsFence() == Raised(old(AsFence()), current + 1)
      ensures r.Ok? && cell != Off ==> current + 1 <= Stored(cell).value
      ensures r.Err? ==> tokens == old(tokens) && watermark == old(watermark)
      ensures seeds == old(seeds)
    {
      if current + 1 > MAX_FENCING_TOKEN {
        return Err(Exhausted);
      }
      var raised := Raise(current + 1, write);
      if raised.Err? {
        return Err(raised.error);
      }
      tokens := tokens + [current + 1];
      r := Ok(current + 1);
    }
  }

  /** LMX_FENCING_TOKEN_FLOOR: no text means no floor. */
  function FloorOf(text: string): Option<nat> {
    if text == "" then Some(0) else Parse(text)
  }

  /** Start from the environment and the file: a text that is no canonical watermark refuses. */
  method Open(floorText: string, found: Cell) returns (r: Result<FencingState>)
    ensures r.Ok? <==> FloorOf(floorText).Some? && Stored(found).Some?
    ensures r.Err? ==> r.error == Unreadable
    ensures r.Ok? ==> fresh(r.value) && r.value.Valid() && r.value.cell == found && r.value.tokens == []
    ensures r.Ok? ==> r.value.watermark == Max(FloorOf(floorText).value, Stored(found).value)
  {
    var floor, stored := FloorOf(floorText), Stored(found);
    if floor.None? || stored.None? {
      return Err(Unreadable);
    }
    var state := new FencingState(floor.value, found);
    r := Ok(state);
  }

  /** A broker restarted on the file another one left, at any point of its life: it starts, and
      every counter it seeds is at or above every token the other took. */
  method Reopen(before: FencingState, floorText: string) returns (r: Result<FencingState>)
    requires before.Valid() && before.cell != Off && FloorOf(floorText).Some?
    ensures r.Ok? && fresh(r.value) && r.value.Valid() && r.value.cell == before.cell
    ensures forall v :: v in before.tokens ==> v <= r.value.watermark
  {
    r := Open(floorText, before.cell);
  }

  // ----- Headroom -----

  const MAX_COMPOSITE_KEYS: nat := 64

  /** The largest time value of ECMA-262 (section 21.4.1.1), in milliseconds. */
  const MAX_TIME: int := 8640000000000000

  predicate HasHeadroom(f: Fence, required: nat) {
    required <= MAX_COMPOSITE_KEYS && f.watermark <= MAX_FENCING_TOKEN - required
  }

  /** The walk of a multi-key attempt takes no value the ceiling refuses: neither a seed for a new
      key nor a token. */
  ghost predicate NeverExhausts(t: Table, ks: seq<Key>, ws: Ws, ttl: Millis, lockUuid: Uuid, env: Env)
    decreases |ks|
  {
    ks == [] || Full(t, ks[0]) ||
      var t1 := GrantMember(t, ks[0], ws, ttl, lockUuid, env);
      && (ks[0] !in t.locks ==> 0 <= Seed(t.fence, env.now) <= MAX_FENCING_TOKEN)
      && TokenOf(t1, ks[0]) <= MAX_FENCING_TOKEN
      && NeverExhausts(t1, ks[1..], ws, ttl, lockUuid, env)
  }

  lemma TakesRaises(t: Table, t': Table, k: Key, u: Uuid)
    requires Takes(t, t', k, u) && t.fence.hardened && t.locks[k].nextToken <= t.fence.watermark
    ensures t'.fence.hardened && TokenOf(t', k) <= t'.fence.watermark <= t.fence.watermark + 1
  {}

  lemma SeedRaises(t: Table, k: Key, max: Pos, env: Env)
    requires k !in t.locks && t.fence.hardened && t.fence.floor <= t.fence.watermark
    ensures var t' := Materialize(t, k, max, env);
      && t'.fence.hardened && t'.locks[k].nextToken <= t'.fence.watermark <= Max(t.fence.watermark, env.now)
  {}

  lemma TakenAfterSeed(t: Table, t0: Table, t1: Table, k: Key, env: Env)
    requires t.fence.hardened && Covered(t)
    requires t0 == Materialize(t, k, 1, env) && k in t0.locks
    requires Takes(Unidled(t, t0, k), t1, k, Minted(t.minted))
    ensures TokenOf(t1, k) <= t1.fence.watermark <= Max(t.fence.watermark, env.now) + 1 && t1.fence.hardened
  {
    if k !in t.locks { SeedRaises(t, k, 1, env); }
    TakesRaises(Unidled(t, t0, k), t1, k, Minted(t.minted));
  }

  lemma MemberRaises(t: Table, k: Key, ws: Ws, ttl: Millis, lockUuid: Uuid, env: Env)
    requires t.fence.hardened && Authority(t) && !Full(t, k)
    ensures var t1 := GrantMember(t, k, ws, ttl, lockUuid, env);
      && TokenOf(t1, k) <= t1.fence.watermark <= Max(t.fence.watermark, env.now) + 1
      && Authority(t1) && t1.fence.hardened
      && (k !in t.locks ==> Seed(t.fence, env.now) <= Max(t.fence.watermark, env.now))
  {
    var t0 := Materialize(t, k, 1, env);
    GrantMemberAuthority(t, k, ws, ttl, lockUuid, env);
    MemberSteps(t, t0, k, ws, ttl, lockUuid, env);
    TakenAfterSeed(t, t0, GrantMember(t, k, ws, ttl, lockUuid, env), k, env);
  }

  /** After `i` grants the watermark is at most `i` above where it, or the clock, stood. */
  lemma {:induction false} WalkHasRoom(t: Table, ks: seq<Key>, ws: Ws, ttl: Millis, lockUuid: Uuid, env: Env,
                                       ceiling: int)
    requires t.fence.hardened && Authority(t)
    requires t.fence.watermark + |ks| <= ceiling <= MAX_FENCING_TOKEN && env.now + |ks| <= ceiling
    ensures NeverExhausts(t, ks, ws, ttl, lockUuid, env)
    ensures TryKeys(t, ks, ws, ttl, lockUuid, env).t.fence.watermark <= ceiling
    decreases |ks|
  {
    if ks != [] && !Full(t, ks[0]) {
      MemberRaises(t, ks[0], ws, ttl, lockUuid, env);
      WalkHasRoom(GrantMember(t, ks[0], ws, ttl, lockUuid, env), ks[1..], ws, ttl, lockUuid, env, ceiling);
    }
  }

  /** How many tokens the hardened `acquireMany` asks room for: the distinct strings among the keys,
      or one. */
  function Required(raw: RawKeys): nat {
    if raw.Entries? then |set e | e in raw.entries && e.Str? :: e.key| else 1
  }

  lemma {:induction false} DistinctSize<T>(s: seq<T>, members: set<T>)
    requires Distinct(s) && forall x :: x in members <==> x in s
    ensures |members| == |s|
  {
    if s == [] {
      assert members == {};
    } else {
      var rest := members - {s[0]};
      assert forall x :: x in s <==> x == s[0] || x in s[1..];
      DistinctSize(s[1..], rest);
      assert members == rest + {s[0]};
    }
  }

  lemma RequiredIsKeys(raw: RawKeys)
    requires !BadKeys(raw)
    ensures Required(raw) == |RequestedKeys(raw.entries)|
  {
    SortedKeysSorted(raw.entries);
    var names := set e | e in raw.entries && e.Str? :: e.key;
    var ks := RequestedKeys(raw.entries);
    forall k ensures k in names <==> k in ks {
      assert k in ks <==> Str(k) in raw.entries;
    }
    DistinctSize(ks, names);
  }

  /** A multi-key request that `hasHeadroom` lets through never meets the ceiling half-way: neither
      a new key's seed nor a member's token is refused. */
  lemma AdmittedNeverExhausts(s: State, req: ManyReq, ws: Ws, ttl: Millis, env: Env)
    requires s.t.fence.hardened && Authority(s.t) && !BadKeys(req.keys)
    requires HasHeadroom(s.t.fence, Required(req.keys)) && env.now <= MAX_TIME
    ensures NeverExhausts(DrawOne(s).t, RequestedKeys(req.keys.entries), ws, ttl, Minted(s.t.minted), env)
  {
    var ks := RequestedKeys(req.keys.entries);
    RequiredIsKeys(req.keys);
    DrawSheds(s);
    var top := Max(s.t.fence.watermark, env.now);
    WalkHasRoom(DrawOne(s).t, ks, ws, ttl, Minted(s.t.minted), env, top + |ks|);
  }

  lemma DrawSheds(s: State)
    requires Authority(s.t)
    ensures Authority(DrawOne(s).t)
  {
    assert Sheds(s.t, DrawOne(s).t);
    ShedObjectsAuthority(s.t, DrawOne(s).t);
  }

  lemma GrantRaises(t: Table, k: Key, u: Uuid, ws: Ws, ttl: Millis, env: Env)
    requires k in t.locks && t.fence.hardened && t.locks[k].nextToken <= t.fence.watermark
    ensures Grant(t, k, u, ws, ttl, None, env).fence.watermark <= t.fence.watermark + 1
  {
    GrantTakes(t, k, u, ws, ttl, None, env);
    TakesRaises(t, Grant(t, k, u, ws, ttl, None, env), k, u);
  }

  lemma DecideRaises(s: State, ws: Ws, req: LockReq, ttl: Millis, env: Env)
    requires req.key in s.t.locks && s.t.fence.hardened && Covered(s.t)
    ensures Decide(s, ws, req, ttl, env).t.fence.watermark <= s.t.fence.watermark + 1
  {
    if !Full(s.t, req.key) { GrantRaises(s.t, req.key, req.uuid, ws, ttl, env); } else { JoinSheds(s.t, ws, req, ttl); }
  }

  lemma CoveredStill(t: Table, t': Table)
    requires Covered(t) && ShedsObjects(t, t')
    ensures Covered(t') && t'.fence == t.fence
  {}

  lemma LockRaises(s: State, ws: Ws, req: LockReq, env: Env)
    requires s.t.fence.hardened && Covered(s.t)
    ensures Lock(s, ws, req, env).t.fence.watermark <= Max(s.t.fence.watermark, env.now) + 1
  {
    if !BadMax(req.max) {
      var s1, k, ttl := Register(s, ws, req, env), req.key, SingleTtl(s, req.ttl);
      RegisterSheds(s, ws, req, env);
      CoveredStill(s.t, s1.t);
      if k in s1.t.locks {
        var s2 := s1.(t := SetMax(s1.t, k, req.max));
        SetMaxSheds(s1.t, k, req.max);
        CoveredStill(s1.t, s2.t);
        DecideRaises(s2, ws, req, ttl, env);
      } else {
        var m: Pos := if req.max.Int? then req.max.n else 1;
        SeedRaises(s1.t, k, m, env);
        GrantRaises(Materialize(s1.t, k, m, env), k, req.uuid, ws, ttl, env);
      }
    }
  }

  /** A single-key request that `hasHeadroom` lets through meets no ceiling: no counter, and no token
      taken, is above it afterwards. */
  lemma AdmittedLockNeverExhausts(s: State, ws: Ws, req: LockReq, env: Env)
    requires s.t.fence.hardened && Trusted(s) && HasHeadroom(s.t.fence, 1) && env.now <= MAX_TIME
    ensures var t' := Lock(s, ws, req, env).t;
      && (forall k :: k in t'.locks ==> t'.locks[k].nextToken <= MAX_FENCING_TOKEN)
      && (forall m :: m in Log(t') ==> m.token <= MAX_FENCING_TOKEN)
  {
    LockFollows(s, ws, req, env);
    LockRaises(s, ws, req, env);
  }
}

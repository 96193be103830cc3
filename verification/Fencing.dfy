/** Fencing authority: a key's tokens only ever grow. In the hardened broker always, because every
    token is covered by the durable cell before it is taken; in the base broker as long as no key is
    made anew by a clock that has gone back. And holders never exceed the largest `max` of their key. */
module Fencing {
  import opened BrokerTypes
  import opened BrokerSpec

  // ----- The journal -----

  /** Every later token of a key is higher. */
  ghost predicate Increasing(log: seq<Mint>) {
    forall i, j :: 0 <= i < j < |log| && log[i].key == log[j].key ==> log[i].token < log[j].token
  }

  /** What the durable cell holds after the journal: the value last written. */
  function CellAfter(journal: seq<Note>): Option<int> {
    if journal == [] then None
    else
      var last := journal[|journal| - 1];
      if last.Wrote? then Some(last.value) else CellAfter(journal[..|journal| - 1])
  }

  /** A value written is no lower than what the cell held, and a token taken no higher. */
  ghost predicate NoteOk(n: Note, cell: Option<int>) {
    match n
    case Wrote(v) => cell.Some? ==> cell.value <= v
    case Took(m, _, _) => cell.Some? && m.token <= cell.value
  }

  /** The cell only rises, and each token was covered by it when it was taken. */
  ghost predicate WriteAhead(journal: seq<Note>) {
    forall i :: 0 <= i < |journal| ==> NoteOk(journal[i], CellAfter(journal[..i]))
  }

  /** Each grant left no more holders than the largest `max` of its key. */
  ghost predicate Packed(journal: seq<Note>) {
    forall n :: n in journal && n.Took? ==> n.holders <= n.maxEver
  }

  lemma OneMoreNote(journal: seq<Note>, n: Note)
    ensures Taken(journal + [n]) == Taken(journal) + if n.Took? then [n.mint] else []
    ensures CellAfter(journal + [n]) == if n.Wrote? then Some(n.value) else CellAfter(journal)
    ensures WriteAhead(journal) && NoteOk(n, CellAfter(journal)) ==> WriteAhead(journal + [n])
  {
    var all := journal + [n];
    assert all[..|all| - 1] == journal;
    forall i | 0 <= i < |journal| ensures all[..i] == journal[..i] {}
  }

  /** A journal cut short. */
  lemma {:induction false} CutJournal(journal: seq<Note>, cut: nat)
    requires cut <= |journal|
    ensures Taken(journal[..cut]) <= Taken(journal)
    ensures WriteAhead(journal) ==> WriteAhead(journal[..cut])
    ensures WriteAhead(journal) && CellAfter(journal[..cut]).Some? ==>
              CellAfter(journal).Some? && CellAfter(journal[..cut]).value <= CellAfter(journal).value
    decreases |journal|
  {
    forall i | 0 <= i < cut ensures journal[..cut][..i] == journal[..i] {}
    if cut == |journal| {
      assert journal[..cut] == journal;
    } else {
      var most := journal[..|journal| - 1];
      assert journal == most + [journal[|journal| - 1]] && most[..cut] == journal[..cut];
      forall i | 0 <= i < |most| ensures most[..i] == journal[..i] {}
      CutJournal(most, cut);
      OneMoreNote(most, journal[|journal| - 1]);
    }
  }

  /** No token taken is above the cell. */
  lemma {:induction false} TakenCovered(journal: seq<Note>)
    requires WriteAhead(journal)
    ensures forall m :: m in Taken(journal) ==> CellAfter(journal).Some? && m.token <= CellAfter(journal).value
    decreases |journal|
  {
    if journal != [] {
      var most := journal[..|journal| - 1];
      assert journal == most + [journal[|journal| - 1]];
      CutJournal(journal, |journal| - 1);
      OneMoreNote(most, journal[|journal| - 1]);
      TakenCovered(most);
    }
  }

  // ----- What holds of the table -----

  /** No counter is above the watermark; a durable cell that lags it (it may, below a configured
      floor) lags every counter too, so the next token will be written to it. */
  ghost predicate Covered(t: Table) {
    var f := t.fence;
    && f.floor <= f.watermark
    && (forall k :: k in t.locks ==> t.locks[k].nextToken <= f.watermark)
    && (f.durable.Some? ==> f.durable.value <= f.watermark)
    && (f.durable.Some? && f.durable.value < f.watermark ==>
          forall k :: k in t.locks ==> t.locks[k].nextToken == f.watermark)
  }

  /** Tokens taken are on the watermark's side, and on their key's counter's. */
  ghost predicate Bounded(t: Table) {
    forall m :: m in Log(t) ==>
      m.token <= t.fence.watermark && (m.key in t.locks ==> m.token <= t.locks[m.key].nextToken)
  }

  /** The journal tells what the durable cell holds, and that it was written ahead of every token. */
  ghost predicate Journaled(t: Table) {
    t.fence.durable.Some? ==> CellAfter(t.journal) == t.fence.durable && WriteAhead(t.journal)
  }

  /** Holders hold tokens taken for their key, and are no more than its largest `max`; when that
      is one, the holder's token is the key's counter. */
  ghost predicate KeyCapped(k: Key, o: LockObj, log: seq<Mint>) {
    && o.max <= o.maxEver && |o.holders| <= o.maxEver
    && (forall u :: u in o.holders ==> Mint(k, o.holders[u].token) in log)
    && (forall u :: u in o.holders && o.maxEver == 1 ==> o.holders[u].token == o.nextToken)
  }

  ghost predicate Capped(t: Table) {
    forall k :: k in t.locks ==> KeyCapped(k, t.locks[k], Log(t))
  }

  ghost predicate Fenced(t: Table) {
    t.fence.hardened ==> Covered(t) && Bounded(t) && Increasing(Log(t)) && Journaled(t)
  }

  /** `Fenced` says something of the hardened broker, the rest of both. */
  ghost predicate Authority(t: Table) {
    Fenced(t) && Capped(t) && Packed(t.journal)
  }

  // ----- How a key's counter moves on -----

  ghost predicate Climbs(log: seq<Mint>, k: Key) {
    forall i, j :: 0 <= i < j < |log| && log[i].key == log[j].key == k ==> log[i].token < log[j].token
  }

  ghost predicate AtMost(log: seq<Mint>, k: Key, top: int) {
    forall m :: m in log && m.key == k ==> m.token <= top
  }

  ghost predicate CountsUp(t: Table, k: Key)
    requires k in t.locks
  {
    Climbs(Log(t), k) && AtMost(Log(t), k, t.locks[k].nextToken)
  }

  ghost predicate NoneSince(log: seq<Mint>, from: nat, k: Key) {
    forall i :: from <= i < |log| ==> log[i].key != k
  }

  ghost predicate StartsAt(log: seq<Mint>, from: nat, k: Key, token: int) {
    exists i :: from <= i < |log| && log[i] == Mint(k, token)
  }

  /** The base broker: a key that is there keeps counting; one that is made anew by a clock that reads
      `now` gives out `now + 1`, which goes on counting if no earlier token was above `now`. */
  ghost predicate MovesOn(t: Table, t': Table, k: Key, now: int) {
    if k in t.locks then k in t'.locks && (CountsUp(t, k) ==> CountsUp(t', k))
    else if k !in t'.locks then NoneSince(Log(t'), |Log(t)|, k)
    else
      && StartsAt(Log(t'), |Log(t)|, k, now + 1)
      && (Climbs(Log(t), k) && AtMost(Log(t), k, now) ==> CountsUp(t', k))
  }

  /** Nothing is taken back. */
  ghost predicate Carries(t: Table, t': Table) {
    && t.journal <= t'.journal && Log(t) <= Log(t')
    && t.fence.watermark <= t'.fence.watermark && t'.fence.floor == t.fence.floor
    && t'.fence.hardened == t.fence.hardened && (t.fence.durable.Some? <==> t'.fence.durable.Some?)
    && (t.fence.durable.Some? ==> t.fence.durable.value <= t'.fence.durable.value)
  }

  ghost predicate Grows(t: Table, t': Table, now: int) {
    && Carries(t, t') && t.locks.Keys <= t'.locks.Keys
    && (!t.fence.hardened ==> forall k :: MovesOn(t, t', k, now))
  }

  lemma MovesOnTwice(t: Table, t1: Table, t2: Table, k: Key, now: int)
    requires Log(t) <= Log(t1) <= Log(t2) && MovesOn(t, t1, k, now) && MovesOn(t1, t2, k, now)
    ensures MovesOn(t, t2, k, now)
  {
    if k !in t.locks {
      if k in t1.locks {
        var i :| |Log(t)| <= i < |Log(t1)| && Log(t1)[i] == Mint(k, now + 1);
        assert Log(t2)[i] == Mint(k, now + 1);
      } else {
        NoneSinceSame(Log(t), Log(t1), k, now);
        if k in t2.locks { assert StartsAt(Log(t2), |Log(t1)|, k, now + 1); }
      }
    }
  }

  lemma NoneSinceSame(log: seq<Mint>, log1: seq<Mint>, k: Key, top: int)
    requires log <= log1 && NoneSince(log1, |log|, k)
    ensures Climbs(log, k) ==> Climbs(log1, k)
    ensures AtMost(log, k, top) ==> AtMost(log1, k, top)
  {
    forall m | m in log1 && m.key == k ensures m in log {
      var i :| 0 <= i < |log1| && log1[i] == m;
      assert log[i] == m;
    }
    if Climbs(log, k) {
      forall i, j | 0 <= i < j < |log1| && log1[i].key == log1[j].key == k ensures log1[i].token < log1[j].token {
        assert log[i] == log1[i] && log[j] == log1[j];
      }
    }
  }

  lemma CarriesTransitive(t: Table, t1: Table, t2: Table)
    requires Carries(t, t1) && Carries(t1, t2)
    ensures Carries(t, t2)
  {}

  lemma GrowsTransitive(t: Table, t1: Table, t2: Table, now: int)
    requires Grows(t, t1, now) && Grows(t1, t2, now)
    ensures Grows(t, t2, now)
  {
    CarriesTransitive(t, t1, t2);
    if !t.fence.hardened {
      forall k ensures MovesOn(t, t2, k, now) { MovesOnTwice(t, t1, t2, k, now); }
    }
  }

  // ----- Taking a token -----

  /** `t'` is `t` with the next token of `k` taken by a holder `u` of it. */
  ghost predicate Takes(t: Table, t': Table, k: Key, u: Uuid) {
    && k in t.locks && t'.locks.Keys == t.locks.Keys
    && (forall x :: x in t.locks && x != k ==> t'.locks[x] == t.locks[x])
    && var (o, o', token) := (t.locks[k], t'.locks[k], t.locks[k].nextToken + 1);
      && u in o'.holders && o'.holders[u].token == token
      && o' == o.(nextToken := token, holders := o.holders[u := o'.holders[u]])
      && t'.journal == t.journal + Writes(t.fence, token) + [Took(Mint(k, token), |o'.holders|, o.maxEver)]
      && t'.fence == Raised(t.fence, token)
  }

  lemma GrantTakes(t: Table, k: Key, u: Uuid, ws: Ws, ttl: Millis, composite: Option<Uuid>, env: Env)
    requires k in t.locks
    ensures Takes(t, Grant(t, k, u, ws, ttl, composite, env), k, u)
  {}

  /** The cell is ahead of the journal, and of any token that will not be written first. */
  ghost predicate AheadOf(journal: seq<Note>, f: Fence, token: int) {
    && f.hardened && f.durable.Some? && CellAfter(journal) == f.durable && WriteAhead(journal)
    && f.durable.value <= f.watermark && (token <= f.watermark ==> token <= f.durable.value)
  }

  /** What taking `token` writes and notes. */
  lemma NotesOfTake(journal: seq<Note>, f: Fence, n: Note)
    requires n.Took?
    ensures var after := journal + Writes(f, n.mint.token) + [n];
      && Taken(after) == Taken(journal) + [n.mint] && journal <= after
      && (AheadOf(journal, f, n.mint.token) ==>
           CellAfter(after) == Raised(f, n.mint.token).durable && WriteAhead(after))
  {
    var token := n.mint.token;
    if Writes(f, token) == [] {
      assert journal + Writes(f, token) == journal;
    } else {
      OneMoreNote(journal, Wrote(token));
    }
    OneMoreNote(journal + Writes(f, token), n);
  }

  lemma TakesNotes(t: Table, t': Table, k: Key, u: Uuid)
    requires Takes(t, t', k, u)
    ensures Log(t') == Log(t) + [Mint(k, t.locks[k].nextToken + 1)] && t.journal <= t'.journal
    ensures t.fence.hardened && Covered(t) && Journaled(t) ==> Journaled(t')
  {
    NotesOfTake(t.journal, t.fence, Took(Mint(k, t.locks[k].nextToken + 1), |t'.locks[k].holders|, t.locks[k].maxEver));
  }

  lemma TakesAuthority(t: Table, t': Table, k: Key, u: Uuid, now: int)
    requires Takes(t, t', k, u) && Authority(t) && !Full(t, k)
    ensures Authority(t') && Grows(t, t', now) && Mint(k, TokenOf(t', k)) in Log(t')
  {
    var m := Mint(k, t.locks[k].nextToken + 1);
    TakesNotes(t, t', k, u);
    assert Log(t')[|Log(t)|] == m;
    if t.fence.hardened {
      GrantIncreasing(Log(t), m);
      GrantBounded(t, t', m);
    } else {
      forall x ensures MovesOn(t, t', x, now) { TakesMovesOn(t, t', k, m, x, now); }
    }
    GrantFits(t, t', k, u);
  }

  lemma TakesMovesOn(t: Table, t': Table, k: Key, m: Mint, x: Key, now: int)
    requires k in t.locks && m == Mint(k, t.locks[k].nextToken + 1)
    requires Log(t') == Log(t) + [m] && t'.locks.Keys == t.locks.Keys
    requires t'.locks[k].nextToken == m.token
    requires forall y :: y in t.locks && y != k ==> t'.locks[y].nextToken == t.locks[y].nextToken
    ensures MovesOn(t, t', x, now)
  {
    if x != k {
      NoneSinceSame(Log(t), Log(t'), x, if x in t.locks then t.locks[x].nextToken else 0);
    } else if CountsUp(t, k) {
      forall i | 0 <= i < |Log(t)| && Log(t)[i].key == k
        ensures Log(t)[i].token < m.token
      {
        assert Log(t)[i] in Log(t);
      }
    }
  }

  lemma GrantAuthority(t: Table, k: Key, u: Uuid, ws: Ws, ttl: Millis, composite: Option<Uuid>, env: Env)
    requires k in t.locks && Authority(t) && !Full(t, k)
    ensures var t' := Grant(t, k, u, ws, ttl, composite, env);
      Authority(t') && Grows(t, t', env.now) && Mint(k, TokenOf(t', k)) in Log(t')
  {
    GrantTakes(t, k, u, ws, ttl, composite, env);
    TakesAuthority(t, Grant(t, k, u, ws, ttl, composite, env), k, u, env.now);
  }

  lemma GrantIncreasing(log: seq<Mint>, m: Mint)
    requires Increasing(log) && forall n :: n in log && n.key == m.key ==> n.token < m.token
    ensures Increasing(log + [m])
  {
    var all := log + [m];
    forall i, j | 0 <= i < j < |all| && all[i].key == all[j].key ensures all[i].token < all[j].token {
      assert log[i] in log;
    }
  }

  lemma GrantBounded(t: Table, t': Table, m: Mint)
    requires t.fence.hardened && Covered(t) && Bounded(t)
    requires m.key in t.locks && m.token == t.locks[m.key].nextToken + 1
    requires Log(t') == Log(t) + [m] && t'.fence == Raised(t.fence, m.token) && t'.locks.Keys == t.locks.Keys
    requires t'.locks[m.key].nextToken == m.token
    requires forall x :: x in t.locks && x != m.key ==> t'.locks[x].nextToken == t.locks[x].nextToken
    ensures Covered(t') && Bounded(t')
  {
    forall n | n in Log(t') ensures n == m || n in Log(t) {}
  }

  lemma GrantCount(t: Table, t': Table, k: Key, u: Uuid)
    requires Capped(t) && Takes(t, t', k, u) && !Full(t, k)
    ensures |t'.locks[k].holders| <= t.locks[k].maxEver
  {
    RoomForOne(t.locks[k].holders, t'.locks[k].holders, u);
  }

  lemma CappedLater(k: Key, o: LockObj, log: seq<Mint>, more: seq<Mint>)
    requires KeyCapped(k, o, log) && log <= more
    ensures KeyCapped(k, o, more)
  {
    assert forall m :: m in log ==> m in more;
  }

  lemma TakenCapped(k: Key, o: LockObj, o': LockObj, u: Uuid, log: seq<Mint>)
    requires KeyCapped(k, o, log) && (o.maxEver == 1 ==> o.holders == map[])
    requires u in o'.holders && o'.holders[u].token == o.nextToken + 1 == o'.nextToken && |o'.holders| <= o'.maxEver
    requires o'.holders == o.holders[u := o'.holders[u]] && o'.max == o.max && o'.maxEver == o.maxEver
    ensures KeyCapped(k, o', log + [Mint(k, o.nextToken + 1)])
  {
    var more := log + [Mint(k, o.nextToken + 1)];
    assert more[|log|] == Mint(k, o.nextToken + 1);
    CappedLater(k, o, log, more);
  }

  lemma GrantCapped(t: Table, t': Table, k: Key, u: Uuid)
    requires Capped(t) && Takes(t, t', k, u) && |t'.locks[k].holders| <= t.locks[k].maxEver
    requires t.locks[k].maxEver == 1 ==> t.locks[k].holders == map[]
    requires Log(t') == Log(t) + [Mint(k, t.locks[k].nextToken + 1)]
    ensures Capped(t')
  {
    forall x | x in t'.locks ensures KeyCapped(x, t'.locks[x], Log(t')) {
      if x == k {
        TakenCapped(k, t.locks[k], t'.locks[k], u, Log(t));
      } else {
        CappedLater(x, t.locks[x], Log(t), Log(t'));
      }
    }
  }

  lemma GrantPacked(t: Table, t': Table, k: Key, u: Uuid)
    requires Takes(t, t', k, u) && Packed(t.journal) && |t'.locks[k].holders| <= t.locks[k].maxEver
    ensures Packed(t'.journal)
  {}

  lemma GrantFits(t: Table, t': Table, k: Key, u: Uuid)
    requires Capped(t) && Packed(t.journal) && Takes(t, t', k, u) && !Full(t, k)
    requires Log(t') == Log(t) + [Mint(k, t.locks[k].nextToken + 1)]
    ensures Capped(t') && Packed(t'.journal)
  {
    GrantCount(t, t', k, u);
    RoomForOne(t.locks[k].holders, t'.locks[k].holders, u);
    GrantCapped(t, t', k, u);
    GrantPacked(t, t', k, u);
  }

  lemma RoomForOne(h: map<Uuid, Holder>, h': map<Uuid, Holder>, u: Uuid)
    requires u in h' && h' == h[u := h'[u]]
    ensures |h'| <= |h| + 1 && (|h| == 0 ==> h == map[])
  {
    assert h'.Keys == h.Keys + {u};
    assert |h'| == |h'.Keys| && |h| == |h.Keys|;
  }

  // ----- Seeding a counter, and taking its first token -----

  /** `t'` is `t` with a new lock object for `k`. */
  ghost predicate Seeds(t: Table, t': Table, k: Key, now: int) {
    && k !in t.locks && t'.locks.Keys == t.locks.Keys + {k}
    && (forall x :: x in t.locks ==> t'.locks[x] == t.locks[x])
    && t'.locks[k].nextToken == Seed(t.fence, now) && t'.locks[k].holders == map[]
    && t'.locks[k].max == t'.locks[k].maxEver
    && t'.journal == t.journal + Writes(t.fence, Seed(t.fence, now)) && t'.fence == Raised(t.fence, Seed(t.fence, now))
  }

  lemma MaterializeSeeds(t: Table, k: Key, max: Pos, env: Env)
    requires k !in t.locks
    ensures Seeds(t, Materialize(t, k, max, env), k, env.now)
  {}

  lemma SeedsNotes(t: Table, t': Table, k: Key, now: int)
    requires Seeds(t, t', k, now)
    ensures Log(t') == Log(t) && t.journal <= t'.journal
    ensures Packed(t.journal) ==> Packed(t'.journal)
    ensures t.fence.hardened && Covered(t) && Journaled(t) ==> Journaled(t')
  {
    var seed := Seed(t.fence, now);
    if Writes(t.fence, seed) == [] {
      assert t'.journal == t.journal;
    } else {
      OneMoreNote(t.journal, Wrote(seed));
    }
  }

  /** A lock object made anew starts, in the hardened broker, at or above every token ever taken. */
  lemma SeedsAuthority(t: Table, t': Table, k: Key, now: int)
    requires Seeds(t, t', k, now) && Authority(t)
    ensures Authority(t') && Carries(t, t')
    ensures t.fence.hardened ==> forall m :: m in Log(t) ==> m.token <= t'.locks[k].nextToken
  {
    SeedsNotes(t, t', k, now);
    if t.fence.hardened { SeedBounded(t, t', k, Seed(t.fence, now)); }
  }

  lemma SeedBounded(t: Table, t': Table, k: Key, seed: int)
    requires t.fence.hardened && Covered(t) && Bounded(t) && k !in t.locks && seed >= t.fence.watermark
    requires Log(t') == Log(t) && t'.fence == Raised(t.fence, seed) && t'.locks.Keys == t.locks.Keys + {k}
    requires t'.locks[k].nextToken == seed
    requires forall x :: x in t.locks ==> t'.locks[x].nextToken == t.locks[x].nextToken
    ensures Covered(t') && Bounded(t')
  {}

  /** A new lock object, then its first token. */
  lemma SeedsThenTakes(t: Table, t0: Table, t1: Table, t2: Table, k: Key, u: Uuid, now: int)
    requires Authority(t) && Seeds(t, t0, k, now) && Sheds(t0, t1) && Takes(t1, t2, k, u) && !Full(t1, k)
    ensures Authority(t2) && Grows(t, t2, now) && Mint(k, TokenOf(t2, k)) in Log(t2)
  {
    SeedsAuthority(t, t0, k, now);
    ShedAuthority(t0, t1, now);
    TakesAuthority(t1, t2, k, u, now);
    CarriesTransitive(t, t0, t1);
    CarriesTransitive(t, t1, t2);
    SeedsNotes(t, t0, k, now);
    TakesNotes(t1, t2, k, u);
    SeededMoves(t, t0, t1, t2, k, now);
  }

  lemma SeededMoves(t: Table, t0: Table, t1: Table, t2: Table, k: Key, now: int)
    requires Seeds(t, t0, k, now) && Log(t0) == Log(t) && Sheds(t0, t1) && Grows(t1, t2, now) && k in t1.locks
    requires Carries(t, t2) && t2.locks.Keys == t1.locks.Keys
    requires Log(t2) == Log(t1) + [Mint(k, t1.locks[k].nextToken + 1)]
    ensures Grows(t, t2, now)
  {
    if !t.fence.hardened {
      forall x ensures MovesOn(t, t2, x, now) { MadeMovesOn(t, t1, t2, k, x, now); }
    }
  }

  lemma MadeMovesOn(t: Table, t1: Table, t2: Table, k: Key, x: Key, now: int)
    requires k !in t.locks && t1.locks.Keys == t.locks.Keys + {k} && Log(t1) == Log(t)
    requires forall y :: y in t.locks ==> t1.locks[y].nextToken == t.locks[y].nextToken
    requires k in t1.locks && t1.locks[k].nextToken == now
    requires MovesOn(t1, t2, x, now) && Log(t2) == Log(t) + [Mint(k, now + 1)] && t2.locks.Keys == t1.locks.Keys
    ensures MovesOn(t, t2, x, now)
  {
    if x == k { assert Log(t2)[|Log(t)|] == Mint(k, now + 1); }
  }

  // ----- Everything else takes no token -----

  /** Lock objects, holders, waiters or marks may go. */
  ghost predicate ShedsObjects(t: Table, t': Table) {
    && t'.journal == t.journal && t'.fence == t.fence
    && forall k :: k in t'.locks ==>
      && k in t.locks && t'.locks[k].nextToken == t.locks[k].nextToken
      && t.locks[k].maxEver <= t'.locks[k].maxEver
      && (t'.locks[k].max == t.locks[k].max || t'.locks[k].max <= t'.locks[k].maxEver)
      && (forall u :: u in t'.locks[k].holders ==>
            u in t.locks[k].holders && t'.locks[k].holders[u] == t.locks[k].holders[u])
  }

  ghost predicate Sheds(t: Table, t': Table) {
    t'.locks.Keys == t.locks.Keys && ShedsObjects(t, t')
  }

  lemma ShedCapped(t: Table, t': Table)
    requires Capped(t) && ShedsObjects(t, t')
    ensures Capped(t')
  {
    forall k | k in t'.locks ensures KeyCapped(k, t'.locks[k], Log(t')) {
      assert KeyCapped(k, t.locks[k], Log(t));
      FewerHolders(t'.locks[k].holders, t.locks[k].holders);
    }
  }

  lemma ShedFenced(t: Table, t': Table)
    requires Fenced(t) && ShedsObjects(t, t')
    ensures Fenced(t')
  {}

  lemma ShedObjectsAuthority(t: Table, t': Table)
    requires Authority(t) && ShedsObjects(t, t')
    ensures Authority(t') && Carries(t, t')
  {
    ShedCapped(t, t');
    ShedFenced(t, t');
  }

  lemma ShedAuthority(t: Table, t': Table, now: int)
    requires Authority(t) && Sheds(t, t')
    ensures Authority(t') && Grows(t, t', now)
  {
    ShedObjectsAuthority(t, t');
  }

  lemma FewerHolders(h': map<Uuid, Holder>, h: map<Uuid, Holder>)
    requires forall u :: u in h' ==> u in h
    ensures |h'| <= |h|
  {
    SubsetSize(h'.Keys, h.Keys);
    assert |h'| == |h'.Keys| && |h| == |h.Keys|;
  }

  lemma {:induction false} SubsetSize<T>(a: set<T>, b: set<T>)
    requires a <= b
    ensures |a| <= |b|
  {
    if a != {} {
      var x :| x in a;
      SubsetSize(a - {x}, b - {x});
    }
  }

  // ----- A multi-key attempt -----

  lemma GrantMemberAuthority(t: Table, k: Key, ws: Ws, ttl: Millis, lockUuid: Uuid, env: Env)
    requires Authority(t) && !Full(t, k)
    ensures var t' := GrantMember(t, k, ws, ttl, lockUuid, env);
      Authority(t') && Grows(t, t', env.now) && Mint(k, TokenOf(t', k)) in Log(t')
  {
    var t0, t2 := Materialize(t, k, 1, env), GrantMember(t, k, ws, ttl, lockUuid, env);
    MemberSteps(t, t0, k, ws, ttl, lockUuid, env);
    if k in t.locks {
      ShedThenTake(t, Unidled(t, t0, k), t2, k, Minted(t.minted), env.now);
    } else {
      MaterializeSeeds(t, k, 1, env);
      SeedsThenTakes(t, t0, Unidled(t, t0, k), t2, k, Minted(t.minted), env.now);
    }
  }

  function Unidled(t: Table, t0: Table, k: Key): Table
    requires k in t0.locks
  {
    t0.(minted := t.minted + 1, locks := t0.locks[k := t0.locks[k].(emptiedAt := None)])
  }

  lemma MemberSteps(t: Table, t0: Table, k: Key, ws: Ws, ttl: Millis, lockUuid: Uuid, env: Env)
    requires t0 == Materialize(t, k, 1, env) && !Full(t, k)
    ensures k in t0.locks
    ensures Sheds(t0, Unidled(t, t0, k)) && !Full(Unidled(t, t0, k), k)
    ensures Takes(Unidled(t, t0, k), GrantMember(t, k, ws, ttl, lockUuid, env), k, Minted(t.minted))
  {
    GrantTakes(Unidled(t, t0, k), k, Minted(t.minted), ws, ttl, Some(lockUuid), env);
  }

  lemma ShedThenTake(t: Table, t1: Table, t2: Table, k: Key, u: Uuid, now: int)
    requires Authority(t) && Sheds(t, t1) && Takes(t1, t2, k, u) && !Full(t1, k)
    ensures Authority(t2) && Grows(t, t2, now) && Mint(k, TokenOf(t2, k)) in Log(t2)
  {
    ShedAuthority(t, t1, now);
    TakesAuthority(t1, t2, k, u, now);
    GrowsTransitive(t, t1, t2, now);
  }

  lemma {:induction false} TryKeysAuthority(t: Table, ks: seq<Key>, ws: Ws, ttl: Millis, lockUuid: Uuid, env: Env)
    requires Authority(t)
    ensures var a := TryKeys(t, ks, ws, ttl, lockUuid, env);
      Authority(a.t) && Grows(t, a.t, env.now) && MintsOf(a)
    decreases |ks|
  {
    if ks == [] || Full(t, ks[0]) {
      DropSheds(t, Key([]), Minted(0));
      ShedAuthority(t, t, env.now);
    } else {
      var t1 := GrantMember(t, ks[0], ws, ttl, lockUuid, env);
      var r, a := TryKeys(t1, ks[1..], ws, ttl, lockUuid, env), TryKeys(t, ks, ws, ttl, lockUuid, env);
      GrantMemberAuthority(t, ks[0], ws, ttl, lockUuid, env);
      TryKeysAuthority(t1, ks[1..], ws, ttl, lockUuid, env);
      GrowsTransitive(t, t1, r.t, env.now);
      OneMoreMint(t1, ks[0], r, a);
    }
  }

  /** The tokens of an attempt were all taken, for their keys. */
  ghost predicate MintsOf(a: Attempt) {
    forall k :: k in a.toks ==> Mint(k, a.toks[k]) in Log(a.t)
  }

  lemma OneMoreMint(t1: Table, k: Key, r: Attempt, a: Attempt)
    requires Log(t1) <= Log(r.t) && MintsOf(r) && Mint(k, TokenOf(t1, k)) in Log(t1)
    requires a.t == r.t && a.toks == r.toks[k := TokenOf(t1, k)]
    ensures MintsOf(a)
  {
    assert forall m :: m in Log(t1) ==> m in Log(r.t);
  }

  lemma DropSheds(t: Table, k: Key, u: Uuid)
    ensures Sheds(t, Drop(t, k, u)) && Sheds(t, t)
  {}

  lemma {:induction false} RollbackAuthority(t: Table, ks: seq<Key>, us: map<Key, Uuid>, now: int)
    requires Authority(t)
    ensures Authority(Rollback(t, ks, us)) && Grows(t, Rollback(t, ks, us), now)
    decreases |ks|
  {
    if ks == [] {
      DropSheds(t, Key([]), Minted(0));
      ShedAuthority(t, t, now);
    } else {
      var t1 := if ks[0] in us then Drop(t, ks[0], us[ks[0]]) else t;
      DropSheds(t, ks[0], if ks[0] in us then us[ks[0]] else Minted(0));
      ShedAuthority(t, t1, now);
      RollbackAuthority(t1, ks[1..], us, now);
      GrowsTransitive(t, t1, Rollback(t, ks, us), now);
    }
  }

  lemma TryAllAuthority(t: Table, w: Waiter, env: Env)
    requires w.composite.Some? && Authority(t)
    ensures var a := TryAll(t, w, env);
      && Authority(a.t) && Grows(t, a.t, env.now)
      && (a.contended.None? ==> MintsOf(a))
  {
    var ask := w.composite.value;
    var a := TryKeys(t, ask.allKeys, w.ws, w.ttl, ask.lockUuid, env);
    TryKeysAuthority(t, ask.allKeys, w.ws, w.ttl, ask.lockUuid, env);
    RollbackAuthority(a.t, ask.allKeys, a.us, env.now);
    GrowsTransitive(t, a.t, Rollback(a.t, ask.allKeys, a.us), env.now);
  }

  // ----- What the broker reports -----

  /** The tokens of a frame have been taken for its keys; a granted lock carries one. */
  ghost predicate Vouched(f: Frame, log: seq<Mint>) {
    match f
    case LockFrame(_, _, k, _, acquired, token) =>
      (acquired <==> token.Some?) && (token.Some? ==> Mint(k, token.value) in log)
    case ManyGranted(_, _, _, _, tokens) => forall k :: k in tokens ==> Mint(k, tokens[k]) in log
    case _ => true
  }

  /** Every frame was sent after its tokens were taken. */
  ghost predicate SentInOrder(out: seq<Frame>, sentAt: seq<nat>, journal: seq<Note>) {
    && |sentAt| == |out|
    && (forall i, j :: 0 <= i < j < |sentAt| ==> sentAt[i] <= sentAt[j])
    && forall i :: 0 <= i < |out| ==> sentAt[i] <= |journal| && Vouched(out[i], Taken(journal[..sentAt[i]]))
  }

  ghost predicate Trusted(s: State) {
    Authority(s.t) && SentInOrder(s.out, s.sentAt, s.t.journal)
  }

  /** What a step comes to: as trusted as what it started from, and nothing taken back. */
  ghost predicate Holds(s: State, s': State) {
    Trusted(s') && Carries(s.t, s'.t) && s.out <= s'.out && s.sentAt <= s'.sentAt
  }

  ghost predicate Follows(s: State, s': State, now: int) {
    Trusted(s') && Grows(s.t, s'.t, now) && s.out <= s'.out && s.sentAt <= s'.sentAt
  }

  lemma FollowsTransitive(s: State, s1: State, s2: State, now: int)
    requires Follows(s, s1, now) && Follows(s1, s2, now)
    ensures Follows(s, s2, now)
  {
    GrowsTransitive(s.t, s1.t, s2.t, now);
  }

  lemma HoldsTransitive(s: State, s1: State, s2: State)
    requires Holds(s, s1) && Holds(s1, s2)
    ensures Holds(s, s2)
  {
    CarriesTransitive(s.t, s1.t, s2.t);
  }

  /** The same frames, or one more that is vouched for. */
  ghost predicate Says(s: State, s': State) {
    || (s'.out == s.out && s'.sentAt == s.sentAt)
    || exists f :: s'.out == s.out + [f] && s'.sentAt == s.sentAt + [|s'.t.journal|] && Vouched(f, Log(s'.t))
  }

  lemma SaysInOrder(s: State, s': State)
    requires SentInOrder(s.out, s.sentAt, s.t.journal) && s.t.journal <= s'.t.journal && Says(s, s')
    ensures SentInOrder(s'.out, s'.sentAt, s'.t.journal)
    ensures s.out <= s'.out && s.sentAt <= s'.sentAt
  {
    var j, j' := s.t.journal, s'.t.journal;
    forall i | 0 <= i < |s.out| ensures j'[..s.sentAt[i]] == j[..s.sentAt[i]] {}
    assert j'[..|j'|] == j';
  }

  /** A new table and perhaps one frame more. */
  lemma FollowsBy(s: State, s': State, now: int)
    requires Trusted(s) && Authority(s'.t) && Grows(s.t, s'.t, now) && Says(s, s')
    ensures Follows(s, s', now)
  {
    SaysInOrder(s, s');
  }
}

/** Who survives a release: the pieces every releasing step is made of keep the books and the
    registry, take away exactly the holders they name, and bring back none. */
module Survival {
  import opened BrokerTypes
  import opened BrokerSpec
  import opened Attempts
  import opened BrokerSteps
  import opened Drains
  import opened Bookkeeping
  import opened Registries

  /** The books agree (but for `dying` holders), and so does the registry. */
  ghost predicate Sound(s: State, dying: set<Uuid>) {
    Books(s.t, dying) && Registry(s)
  }

  /** Every member of composite `c` is live. */
  ghost predicate Whole(s: State, c: Uuid) {
    forall k, u :: Member(s, c, k, u) ==> u in Holders(s.t, k)
  }

  /** Every composite registered since `prior` is whole. */
  ghost predicate NewWhole(s: State, prior: iset<Uuid>) {
    forall c :: c in s.composites && c !in prior ==> Whole(s, c)
  }

  ghost predicate KeepsRecords(s: State, s': State) {
    forall c :: c in s.composites ==> c in s'.composites && s'.composites[c] == s.composites[c]
  }

  /** The composites registered so far. */
  ghost function Recorded(s: State): iset<Uuid> {
    iset c | c in s.composites
  }

  // ----- Where the served come from -----

  ghost predicate AsksAs(w: Waiter, c: Uuid, keys: KeyList) {
    w.composite == Some(CompositeAsk(keys, c))
  }

  /** From `s` to `s'` the queue of `k` was served: a composite registered meanwhile waited for `k`; one
      that waits now waited there before, or for `k`; and a client's uuid is granted `k` only. */
  ghost predicate ServedFrom(s: State, s': State, k: Key) {
    && (forall c :: c in s'.composites && c !in s.composites ==>
          exists w :: Waits(s.t, k, w) && AsksAs(w, c, s'.composites[c].keys))
    && (forall x, w :: Waits(s'.t, x, w) && w.composite.Some? ==> Waits(s.t, x, w) || Waits(s.t, k, w))
    && (forall x, u :: u in Holders(s'.t, x) && u !in Holders(s.t, x) && u.Client? ==> x == k)
  }

  lemma ServedTwice(s: State, s1: State, s2: State, k: Key)
    requires ServedFrom(s, s1, k) && ServedFrom(s1, s2, k) && KeepsRecords(s1, s2)
    ensures ServedFrom(s, s2, k)
  {
    forall c | c in s2.composites && c !in s.composites
      ensures exists w :: Waits(s.t, k, w) && AsksAs(w, c, s2.composites[c].keys)
    {
      if c in s1.composites {
        var w :| Waits(s.t, k, w) && AsksAs(w, c, s1.composites[c].keys);
      } else {
        var w :| Waits(s1.t, k, w) && AsksAs(w, c, s2.composites[c].keys);
        assert Waits(s.t, k, w);
      }
    }
    forall x, u | u in Holders(s2.t, x) && u !in Holders(s.t, x) && u.Client? ensures x == k {
      assert u in Holders(s1.t, x) || u !in Holders(s1.t, x);
    }
  }

  /** The same composites; no holder more, and no waiter. */
  lemma FewerServed(s: State, s': State, k: Key)
    requires s'.composites == s.composites
    requires forall x, w :: Waits(s'.t, x, w) ==> Waits(s.t, x, w)
    requires forall x, u :: u in Holders(s'.t, x) ==> u in Holders(s.t, x)
    ensures ServedFrom(s, s', k)
  {}

  lemma ServeServed(s: State, k: Key, env: Env, dying: set<Uuid>)
    requires Queue(s.t, k) != [] && !Full(s.t, k) && Books(s.t, dying)
    ensures ServedFrom(s, ServeNext(s, k, env), k)
  {
    var s', w := ServeNext(s, k, env), Head(s, k, env);
    HeadWaits(s, k, env);
    forall c | c in s'.composites && c !in s.composites
      ensures exists v :: Waits(s.t, k, v) && AsksAs(v, c, s'.composites[c].keys)
    {
      NewRecord(s, k, env, c);
      assert AsksAs(w, c, s'.composites[c].keys);
    }
    forall x, v | Waits(s'.t, x, v) && v.composite.Some? ensures Waits(s.t, x, v) || Waits(s.t, k, v) {
      ServeAtKey(s, k, env, x);
    }
    forall x, u | u in Holders(s'.t, x) && u !in Holders(s.t, x) && u.Client? ensures x == k {
      ServeAtKey(s, k, env, x);
      assert Shape(x, u, Holders(s'.t, x)[u], k, w, env);
    }
  }

  lemma NewRecord(s: State, k: Key, env: Env, c: Uuid)
    requires Queue(s.t, k) != [] && !Full(s.t, k) && Drawn(s.t)
    requires c in ServeNext(s, k, env).composites && c !in s.composites
    ensures AsksAs(Head(s, k, env), c, ServeNext(s, k, env).composites[c].keys)
  {
    if Head(s, k, env).composite.None? {
      ServeSingle(s, k, env, k);
    } else if TryAll(Popped(s, k, env), Head(s, k, env), env).contended.None? {
      ServeGranted(s, k, env, k);
    } else {
      ServeStopped(s, k, env, k);
    }
  }

  // ----- Serving -----

  lemma AnnouncedWhole(s: State, w: Waiter, env: Env, prior: iset<Uuid>)
    requires w.composite.Some? && TryAll(s.t, w, env).contended.None? && Unused(s, w.composite.value.lockUuid)
    requires Drawn(s.t) && Registered(s) && NewWhole(s, prior)
    ensures var s' := Announce(s, w, TryAll(s.t, w, env), env);
      NewWhole(s', prior) && KeepsRecords(s, s') && Whole(s', w.composite.value.lockUuid)
  {
    var s', d := Announce(s, w, TryAll(s.t, w, env), env), w.composite.value.lockUuid;
    AnnouncedMembers(s, w, env);
    forall x, u | Member(s', d, x, u) ensures u in Holders(s'.t, x) { AnnouncedAt(s, w, env, x, u, x); }
    forall c, x, u | c in s.composites && c !in prior && Member(s', c, x, u) ensures u in Holders(s'.t, x) {
      assert Member(s, c, x, u) && Whole(s, c);
      CompositeAtKey(s.t, w, env, x);
    }
  }

  /** When no composite is registered and nobody leaves, whole composites stay whole. */
  lemma SameRecordsWhole(s: State, s': State, prior: iset<Uuid>)
    requires NewWhole(s, prior) && s'.composites == s.composites
    requires forall k, u :: u in Holders(s.t, k) ==> SameHolder(s.t, s'.t, k, u)
    ensures NewWhole(s', prior) && KeepsRecords(s, s')
  {
    forall c, x, u | c in s'.composites && c !in prior && Member(s', c, x, u) ensures u in Holders(s'.t, x) {
      assert Member(s, c, x, u) && Whole(s, c);
      assert SameHolder(s.t, s'.t, x, u);
    }
  }

  lemma ServeKeepsWhole(s: State, k: Key, env: Env, dying: set<Uuid>, prior: iset<Uuid>)
    requires Queue(s.t, k) != [] && !Full(s.t, k) && Sound(s, dying) && NewWhole(s, prior)
    ensures NewWhole(ServeNext(s, k, env), prior) && KeepsRecords(s, ServeNext(s, k, env))
  {
    var s1, w := s.(t := Popped(s, k, env)), Head(s, k, env);
    PopBooks(s, k, env, dying);
    if w.composite.Some? && TryAll(s1.t, w, env).contended.None? {
      SameRecordsWhole(s, s1, prior);
      PopUnused(s, k, env, dying);
      FewerWaitersRegistry(s, s1);
      AnnouncedWhole(s1, w, env, prior);
    } else {
      ServeExtends(s, k, env, dying);
      SameRecordsWhole(s, ServeNext(s, k, env), prior);
    }
  }

  lemma {:induction false} DrainSound(s: State, k: Key, env: Env, dying: set<Uuid>, prior: iset<Uuid>)
    requires Sound(s, dying) && NewWhole(s, prior)
    ensures var s' := Drain(s, k, env);
      Sound(s', dying) && NewWhole(s', prior) && Extends(s.t, s'.t, env) && KeepsRecords(s, s') && ServedFrom(s, s', k)
    decreases |Queue(s.t, k)|
  {
    if Queue(s.t, k) == [] || Full(s.t, k) {
      FewerServed(s, s, k);
    } else {
      var s1 := ServeNext(s, k, env);
      ServeKeepsBooks(s, k, env, dying);
      ServeExtends(s, k, env, dying);
      ServeKeepsRegistry(s, k, env, dying);
      ServeKeepsWhole(s, k, env, dying, prior);
      ServeServed(s, k, env, dying);
      DrainSound(s1, k, env, dying, prior);
      ServedTwice(s, s1, Drain(s1, k, env), k);
      ExtendsTransitive(s.t, s1.t, Drain(s1, k, env).t, env);
    }
  }

  // ----- A change of table that shows in no book -----

  ghost predicate SameBooks(t: Table, t': Table) {
    && t'.minted == t.minted && t'.deadlines == t.deadlines
    && forall k :: Holders(t', k) == Holders(t, k) && Queue(t', k) == Queue(t, k)
  }

  lemma SameBooksSound(s: State, s': State, dying: set<Uuid>, prior: iset<Uuid>, env: Env)
    requires Sound(s, dying) && NewWhole(s, prior)
    requires SameBooks(s.t, s'.t) && s'.composites == s.composites
    ensures Sound(s', dying) && NewWhole(s', prior) && KeepsRecords(s, s')
    ensures s.t.locks.Keys <= s'.t.locks.Keys ==> Extends(s.t, s'.t, env)
  {
    assert forall k, w :: Waits(s'.t, k, w) <==> Waits(s.t, k, w);
    assert forall c, k, u :: Member(s', c, k, u) <==> Member(s, c, k, u);
    SameBooksBooks(s.t, s'.t, dying);
    SameBooksRegistry(s, s');
    forall c | c in s'.composites && c !in prior ensures Whole(s', c) { assert Whole(s, c); }
    if s.t.locks.Keys <= s'.t.locks.Keys {
      forall k, u | u in Holders(s.t, k) ensures SameHolder(s.t, s'.t, k, u) {}
    }
  }

  lemma SameBooksBooks(t: Table, t': Table, dying: set<Uuid>)
    requires Books(t, dying) && SameBooks(t, t')
    ensures Books(t', dying)
  {
    forall k, w | Waits(t', k, w) ensures Waits(t, k, w) {}
    forall k, u | u in Holders(t', k) ensures RowAgrees(t', k, u, dying) { assert RowAgrees(t, k, u, dying); }
    forall u | u in dying
      ensures Held(t', u)
    {
      assert Held(t, u);
      var k :| u in Holders(t, k);
      assert u in Holders(t', k);
    }
  }

  lemma SameBooksRegistry(s: State, s': State)
    requires Registry(s) && SameBooks(s.t, s'.t) && s'.composites == s.composites
    ensures Registry(s')
  {
    assert forall k, w :: Waits(s'.t, k, w) <==> Waits(s.t, k, w);
    assert forall c, k, u :: Member(s', c, k, u) <==> Member(s, c, k, u);
    forall k, u | u in Holders(s'.t, k) ensures TagAgrees(s', k, u) { assert TagAgrees(s, k, u); }
    forall c | c in s'.composites ensures WellFormed(s'.composites[c], s'.t.minted) {}
  }

  lemma DropAbsent(t: Table, k: Key, gone: Option<Uuid>)
    requires k in t.locks && (gone.Some? ==> gone.value !in Holders(t, k) && gone.value !in t.deadlines)
    ensures DropGone(t, k, gone) == t
  {
    if gone.Some? {
      assert t.locks[k].holders - {gone.value} == t.locks[k].holders;
      assert t.deadlines - {gone.value} == t.deadlines;
      assert DropGone(t, k, gone).locks == t.locks;
    }
  }

  lemma EnsureSound(s: State, k: Key, gone: Option<Uuid>, env: Env, dying: set<Uuid>, prior: iset<Uuid>)
    requires k in s.t.locks && Sound(s, dying) && NewWhole(s, prior)
    requires gone.Some? ==> gone.value !in Holders(s.t, k) && gone.value !in s.t.deadlines
    ensures var s' := EnsureNewLockHolder(s, k, gone, env);
      Sound(s', dying) && NewWhole(s', prior) && Extends(s.t, s'.t, env) && KeepsRecords(s, s') && ServedFrom(s, s', k)
  {
    DropAbsent(s.t, k, gone);
    if Holders(s.t, k) == map[] && Queue(s.t, k) == [] {
      var s1 := s.(t := MarkEmptied(s.t, k, env));
      SameBooksSound(s, s1, dying, prior, env);
      assert forall x, w :: Waits(s1.t, x, w) ==> Waits(s.t, x, w);
      FewerServed(s, s1, k);
    } else {
      DrainSound(s, k, env, dying, prior);
    }
  }

  // ----- Taking holders, waiters and rows away -----

  /** From `t` to `t'`, on key `k`: some holders and waiters go, along with the deadline rows
      `rows`; the rows of the goers go, and the holders left without theirs are `dying'`. */
  ghost predicate Shrinks(t: Table, t': Table, k: Key, rows: set<Uuid>, dying: set<Uuid>, dying': set<Uuid>) {
    && t'.minted == t.minted && t'.deadlines == t.deadlines - rows && t.locks.Keys == t'.locks.Keys
    && (forall x :: x != k ==> Holders(t', x) == Holders(t, x) && Queue(t', x) == Queue(t, x))
    && (forall u :: u in Holders(t', k) ==> SameHolder(t', t, k, u))
    && (forall w :: Waits(t', k, w) ==> Waits(t, k, w))
    && (forall w, v :: InLine(t, k, w, v) && Waits(t', k, w) && Waits(t', k, v) ==> InLine(t', k, w, v))
    && QueuesDistinct(t')
    && (forall u :: u in Holders(t, k) && u !in Holders(t', k) ==> u in rows + dying)
    && (forall x, u :: u in Holders(t', x) && u in rows + dying ==> u in dying')
    && dying' <= rows + dying && AllHeld(t', dying')
  }

  lemma ShrinkBooks(t: Table, t': Table, k: Key, rows: set<Uuid>, dying: set<Uuid>, dying': set<Uuid>)
    requires Books(t, dying) && Shrinks(t, t', k, rows, dying, dying')
    ensures Books(t', dying')
  {
    forall x, u | u in Holders(t', x) ensures SameHolder(t', t, x, u) {
      if x != k { assert Holders(t', x) == Holders(t, x); }
    }
    forall x, w | Waits(t', x, w) ensures Waits(t, x, w) {
      if x != k { assert Queue(t', x) == Queue(t, x); }
    }
    forall x, u | u in Holders(t', x) ensures RowAgrees(t', x, u, dying') {
      assert SameHolder(t', t, x, u) && RowAgrees(t, x, u, dying);
    }
    forall u | u in t'.deadlines ensures u in Holders(t', t'.deadlines[u].key) {
      var x := t.deadlines[u].key;
      assert u in Holders(t, x) && RowAgrees(t, x, u, dying);
      assert x != k ==> Holders(t', x) == Holders(t, x);
    }
  }

  lemma ShrinkRegistry(s: State, s': State, k: Key, rows: set<Uuid>, dying: set<Uuid>, dying': set<Uuid>)
    requires Registry(s) && Shrinks(s.t, s'.t, k, rows, dying, dying') && s'.composites == s.composites
    ensures Registry(s')
  {
    forall x, u | u in Holders(s'.t, x) ensures SameHolder(s'.t, s.t, x, u) {
      if x != k { assert Holders(s'.t, x) == Holders(s.t, x); }
    }
    forall x, w | Waits(s'.t, x, w) ensures Waits(s.t, x, w) {
      if x != k { assert Queue(s'.t, x) == Queue(s.t, x); }
    }
    assert forall c, x, u :: Member(s', c, x, u) <==> Member(s, c, x, u);
    forall x, u | u in Holders(s'.t, x)
      ensures TagAgrees(s', x, u)
    {
      assert SameHolder(s'.t, s.t, x, u) && TagAgrees(s, x, u);
    }
    forall c, x, u, y | Member(s', c, x, u) && u in Holders(s'.t, y)
      ensures y == x && Holders(s'.t, y)[u].composite == Some(c)
    {
      assert SameHolder(s'.t, s.t, y, u) && Member(s, c, x, u);
    }
    forall c, x, u, y, v | Member(s', c, x, u) && Member(s', c, y, v) && u in Holders(s'.t, x) && v in Holders(s'.t, y)
      ensures Holders(s'.t, x)[u].ws == Holders(s'.t, y)[v].ws
    {
      assert SameHolder(s'.t, s.t, x, u) && SameHolder(s'.t, s.t, y, v);
      assert Member(s, c, x, u) && Member(s, c, y, v);
    }
  }

  /** Only clients' holders, and members of composites in `prior`, go. */
  ghost predicate GoersOld(t: Table, t': Table, k: Key, prior: iset<Uuid>) {
    forall u :: u in Holders(t, k) && u !in Holders(t', k) ==>
      Holders(t, k)[u].composite.None? || Holders(t, k)[u].composite.value in prior
  }

  lemma ShrinkWhole(s: State, s': State, k: Key, rows: set<Uuid>, dying: set<Uuid>, dying': set<Uuid>,
                    prior: iset<Uuid>)
    requires Registry(s) && NewWhole(s, prior)
    requires Shrinks(s.t, s'.t, k, rows, dying, dying') && s'.composites == s.composites
    requires GoersOld(s.t, s'.t, k, prior)
    ensures NewWhole(s', prior)
  {
    forall c, x, u | c in s'.composites && c !in prior && Member(s', c, x, u) ensures u in Holders(s'.t, x) {
      assert Member(s, c, x, u) && Whole(s, c);
      assert x != k ==> Holders(s'.t, x) == Holders(s.t, x);
    }
  }

  lemma ShrinkSound(s: State, s': State, k: Key, rows: set<Uuid>, dying: set<Uuid>, dying': set<Uuid>,
                    prior: iset<Uuid>)
    requires Sound(s, dying) && NewWhole(s, prior)
    requires Shrinks(s.t, s'.t, k, rows, dying, dying') && s'.composites == s.composites
    requires GoersOld(s.t, s'.t, k, prior)
    ensures Sound(s', dying') && NewWhole(s', prior) && KeepsRecords(s, s')
  {
    ShrinkBooks(s.t, s'.t, k, rows, dying, dying');
    ShrinkRegistry(s, s', k, rows, dying, dying');
    ShrinkWhole(s, s', k, rows, dying, dying', prior);
  }
}

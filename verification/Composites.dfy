/** Composites are all or none: between steps, a registered multi-key grant has either all of its
    holders or none, and its holders share one deadline. */
module Composites {
  import opened BrokerTypes
  import opened BrokerSteps
  import opened Events
  import opened Invariants
  import opened Bookkeeping
  import opened Registries
  import opened Survival
  import opened Releases
  import opened Disconnects
  import opened Safety

  /** No member of composite `c` is live. */
  ghost predicate Gone(s: State, c: Uuid) {
    forall k, u :: Member(s, c, k, u) ==> u !in Holders(s.t, k)
  }

  ghost predicate AllOrNone(s: State) {
    forall c :: c in s.composites ==> Whole(s, c) || Gone(s, c)
  }

  ghost predicate Live(s: State, c: Uuid, k: Key, u: Uuid) {
    Member(s, c, k, u) && u in Holders(s.t, k)
  }

  // ----- When a step splits a composite -----

  /** The step takes one live member of `c` and leaves another. */
  ghost predicate Splits(s: State, e: Event, c: Uuid) {
    && !Ends(s, e, c)
    && exists k, u, x, v :: Live(s, c, k, u) && Live(s, c, x, v) && Removes(s, e, k, u) && !Removes(s, e, x, v)
  }

  lemma SplitStep(s: State, e: Event, s': State)
    requires Sound(s, {}) && AllOrNone(s) && Keeps(s, e, s') && NewWhole(s', Recorded(s))
    ensures AllOrNone(s') <==> forall c :: !Splits(s, e, c)
  {
    if forall c :: !Splits(s, e, c) {
      forall c | c in s'.composites ensures Whole(s', c) || Gone(s', c) {
        if c in s.composites { UnsplitAfter(s, e, s', c); }
      }
    } else {
      var c :| Splits(s, e, c);
      SplitSeen(s, e, s', c);
    }
  }

  lemma SplitSeen(s: State, e: Event, s': State, c: Uuid)
    requires Keeps(s, e, s') && Splits(s, e, c)
    ensures !AllOrNone(s')
  {
    var k, u, x, v :| Live(s, c, k, u) && Live(s, c, x, v) && Removes(s, e, k, u) && !Removes(s, e, x, v);
    SplitTwo(s, e, s', c, k, u, x, v);
  }

  lemma SplitTwo(s: State, e: Event, s': State, c: Uuid, k: Key, u: Uuid, x: Key, v: Uuid)
    requires Keeps(s, e, s') && !Ends(s, e, c)
    requires Live(s, c, k, u) && Live(s, c, x, v) && Removes(s, e, k, u) && !Removes(s, e, x, v)
    ensures c in s'.composites && !Whole(s', c) && !Gone(s', c)
  {
    assert Member(s', c, k, u) && Member(s', c, x, v);
    assert SameHolder(s.t, s'.t, x, v);
  }

  lemma UnsplitAfter(s: State, e: Event, s': State, c: Uuid)
    requires Sound(s, {}) && AllOrNone(s) && Keeps(s, e, s')
    requires c in s.composites && c in s'.composites && !Splits(s, e, c)
    ensures Whole(s', c) || Gone(s', c)
  {
    assert forall k, u :: Member(s', c, k, u) <==> Member(s, c, k, u);
    if Gone(s, c) {
      forall k, u | Member(s', c, k, u) ensures u !in Holders(s'.t, k) {
        assert Member(s, c, k, u) && WellFormed(s.composites[c], s.t.minted);
      }
    } else {
      assert Whole(s, c);
      if k, u :| Live(s, c, k, u) && Removes(s, e, k, u) {
        forall x, v | Member(s', c, x, v) ensures v !in Holders(s'.t, x) { assert Live(s, c, x, v); }
      } else {
        forall x, v | Member(s', c, x, v) ensures v in Holders(s'.t, x) {
          assert Live(s, c, x, v);
          assert SameHolder(s.t, s'.t, x, v);
        }
      }
    }
  }

  // ----- Which steps split -----

  /** What shows in the request and the holders: an unlock that takes a member of a composite over
      several keys, or a sweep whose time falls between two deadlines of one composite. */
  ghost predicate Breaks(s: State, e: Event) {
    !Dropped(s, e) &&
    match e
    case UnlockEvent(_, req) =>
      exists u ::
        u in Holders(s.t, req.key) && Unlocks(req, req.key, u) && Shared(s, Holders(s.t, req.key)[u].composite)
    case TickEvent(_, _) => exists c :: Straddled(s, e, c)
    case _ => false
  }

  ghost predicate Shared(s: State, tag: Option<Uuid>) {
    tag.Some? && tag.value in s.composites && |s.composites[tag.value].keys| > 1
  }

  ghost predicate Straddled(s: State, e: Event, c: Uuid) {
    exists k, u, x, v :: Live(s, c, k, u) && Live(s, c, x, v) && Removes(s, e, k, u) && !Removes(s, e, x, v)
  }

  lemma BreakSplits(s: State, e: Event)
    requires Sound(s, {}) && AllOrNone(s) && Breaks(s, e)
    ensures exists c :: Splits(s, e, c)
  {
    if e.UnlockEvent? {
      var u :| u in Holders(s.t, e.unlock.key) && Unlocks(e.unlock, e.unlock.key, u)
        && Shared(s, Holders(s.t, e.unlock.key)[u].composite);
      UnlockSplits(s, e, u);
    } else {
      var c :| Straddled(s, e, c);
      assert Splits(s, e, c);
    }
  }

  lemma UnlockSplits(s: State, e: Event, u: Uuid)
    requires Sound(s, {}) && AllOrNone(s) && !Dropped(s, e) && e.UnlockEvent?
    requires u in Holders(s.t, e.unlock.key) && Unlocks(e.unlock, e.unlock.key, u)
    requires Shared(s, Holders(s.t, e.unlock.key)[u].composite)
    ensures Splits(s, e, Holders(s.t, e.unlock.key)[u].composite.value)
  {
    var k := e.unlock.key;
    var c := Holders(s.t, k)[u].composite.value;
    assert TagAgrees(s, k, u);
    OtherMember(s, c, k);
    var x, v :| Member(s, c, x, v) && x != k;
    assert Whole(s, c);
    SplitsBy(s, e, c, k, u, x, v);
  }

  lemma SplitsBy(s: State, e: Event, c: Uuid, k: Key, u: Uuid, x: Key, v: Uuid)
    requires !Ends(s, e, c) && Live(s, c, k, u) && Live(s, c, x, v) && Removes(s, e, k, u) && !Removes(s, e, x, v)
    ensures Splits(s, e, c)
  {}

  lemma OtherMember(s: State, c: Uuid, k: Key)
    requires Registered(s) && c in s.composites && |s.composites[c].keys| > 1
    ensures exists x, v :: Member(s, c, x, v) && x != k
  {
    var rec := s.composites[c];
    var x := if rec.keys[0] == k then rec.keys[1] else rec.keys[0];
    assert WellFormed(rec, s.t.minted) && x in rec.keys;
    assert Member(s, c, x, rec.holderUuids[x]);
  }

  lemma SplitBreaks(s: State, e: Event, c: Uuid)
    requires Sound(s, {}) && Splits(s, e, c)
    ensures Breaks(s, e)
  {
    var k, u, x, v :| Live(s, c, k, u) && Live(s, c, x, v) && Removes(s, e, k, u) && !Removes(s, e, x, v);
    SplitTwoBreaks(s, e, c, k, u, x, v);
  }

  lemma SplitTwoBreaks(s: State, e: Event, c: Uuid, k: Key, u: Uuid, x: Key, v: Uuid)
    requires Sound(s, {}) && !Ends(s, e, c)
    requires Live(s, c, k, u) && Live(s, c, x, v) && Removes(s, e, k, u) && !Removes(s, e, x, v)
    ensures Breaks(s, e)
  {
    MembersShared(s, c, k, u, x, v);
    assert Holders(s.t, k)[u].ws == Holders(s.t, x)[v].ws;
    assert Straddled(s, e, c);
  }

  lemma MembersShared(s: State, c: Uuid, k: Key, u: Uuid, x: Key, v: Uuid)
    requires Sound(s, {}) && Live(s, c, k, u) && Live(s, c, x, v)
    ensures Holders(s.t, k)[u].composite == Some(c)
    ensures u != v ==> k != x && Shared(s, Holders(s.t, k)[u].composite)
    ensures k != x ==> u != v && Shared(s, Holders(s.t, k)[u].composite)
  {
    assert WellFormed(s.composites[c], s.t.minted);
    if k != x {
      assert k in s.composites[c].keys && x in s.composites[c].keys;
    }
  }

  // ----- When a close strands one -----

  /** Composite `c` was granted to the closing socket while one of its keys was still to be visited. */
  ghost predicate Stranded(s: State, ws: Ws, visits: Visits, env: Env, c: Uuid) {
    var s' := Disconnect(s, ws, visits, env);
    && c in s'.composites && c !in s.composites && Queued(s.t, ws, c)
    && exists x :: x in s'.composites[c].keys && x !in VisitedBy(s, ws, visits, env, c)
  }

  ghost predicate Strands(s: State, e: Event, env: Env) {
    !Dropped(s, e) && e.CloseEvent? && exists c :: Stranded(s, e.ws, e.visits, env, c)
  }

  /** A composite registered during a close keeps a holder; it keeps all of them unless it is stranded. */
  lemma ClosedComposite(s: State, ws: Ws, visits: Visits, env: Env, s': State, c: Uuid)
    requires Sound(s, {}) && ws !in s.closed && FullVisit(Unplugged(s, ws), visits, {}, Leaving(s, ws), ws, env)
    requires s' == Disconnect(s, ws, visits, env) && Sound(s', {}) && c in s'.composites && c !in s.composites
    ensures !Gone(s', c) || Whole(s', c)
    ensures Queued(s.t, ws, c) ==> !Gone(s', c)
    ensures Whole(s', c) <==> !Stranded(s, ws, visits, env, c)
  {
    ClosedFate(s, ws, visits, env, c);
    assert WellFormed(s'.composites[c], s'.t.minted);
    if Queued(s.t, ws, c) {
      forall x | x in s'.composites[c].keys ensures Member(s', c, x, s'.composites[c].holderUuids[x]) {}
      var x, u :| Member(s', c, x, u) && x in VisitedBy(s, ws, visits, env, c);
      assert u in Holders(s'.t, x);
    }
  }

  lemma CloseAllOrNone(s: State, e: Event, env: Env, s': State)
    requires Sound(s, {}) && AllOrNone(s) && Keeps(s, e, s') && Valid(s, e, env)
    requires e.CloseEvent? && !Dropped(s, e) && s' == Disconnect(s, e.ws, e.visits, env)
    ensures AllOrNone(s') <==> !Strands(s, e, env)
  {
    forall c | c in s'.composites && c !in s.composites
      ensures (Whole(s', c) || Gone(s', c)) <==> !Stranded(s, e.ws, e.visits, env, c)
    {
      ClosedComposite(s, e.ws, e.visits, env, s', c);
    }
    forall c | c in s.composites ensures Whole(s', c) || Gone(s', c) {
      if Splits(s, e, c) { SplitBreaks(s, e, c); }
      UnsplitAfter(s, e, s', c);
    }
  }

  /** What shows before the close: a socket none of whose composites waits for a key it holds strands none. */
  lemma ApartStrandsNone(s: State, e: Event, env: Env)
    requires Sound(s, {}) && Valid(s, e, env) && !Dropped(s, e) && e.CloseEvent? && Apart(s.t, e.ws)
    ensures !Strands(s, e, env)
  {
    forall c ensures !Stranded(s, e.ws, e.visits, env, c) {
      if Stranded(s, e.ws, e.visits, env, c) {
        ClosedSound(s, e.ws, e.visits, env);
        ScrubKeysApart(Unplugged(s, e.ws), e.visits, {}, Leaving(s, e.ws), e.ws, env, c);
      }
    }
  }

  /** A step keeps composites all-or-none exactly when it breaks none and strands none. */
  lemma StepAllOrNone(s: State, e: Event, env: Env)
    requires Sound(s, {}) && NoLostWakeup(s.t) && Valid(s, e, env) && AllOrNone(s)
    ensures AllOrNone(Step(s, e, env)) <==> !Breaks(s, e) && !Strands(s, e, env)
  {
    if !Dropped(s, e) {
      StepKeeps(s, e, env);
      if e.CloseEvent? {
        CloseAllOrNone(s, e, env, Step(s, e, env));
      } else {
        assert forall c :: c in Prior(s, e) ==> c in Recorded(s);
        SplitStep(s, e, Step(s, e, env));
        if Breaks(s, e) { BreakSplits(s, e); }
        if c :| Splits(s, e, c) { SplitBreaks(s, e, c); }
      }
    }
  }
}

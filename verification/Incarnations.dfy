/** Crashes and restarts of the hardened broker in durable mode: a step may stop at any point of its
    journal, and the next incarnation starts from what the durable cell holds by then. */
module Incarnations {
  import opened BrokerTypes
  import opened BrokerSpec
  import opened Events
  import opened Fencing
  import opened FencedRuns

  /** What a state file says after the journal; none says 0. */
  function Found(journal: seq<Note>): int {
    if CellAfter(journal).Some? then CellAfter(journal).value else 0
  }

  /** A broker started again: nothing is left but the durable cell, and the history. */
  function Boot(floor: nat, lockExpiresAfter: Pos, journal: seq<Note>, out: seq<Frame>, sentAt: seq<nat>): State {
    var stored := Found(journal);
    var fence := Fence(true, floor, Max(floor, stored), Some(stored));
    State(Table(map[], map[], 0, fence, journal), map[], out, sentAt, map[], {}, 0, lockExpiresAfter)
  }

  /** `Crash` is a crash in the middle of a step, then a restart with some configured floor: the first
      `cut` notes of the journal had been made, and the first `sent` frames sent. */
  datatype Move =
    | Act(event: Event, env: Env)
    | Crash(event: Event, env: Env, cut: nat, sent: nat, floor: nat)

  /** A point on the way from `s` to `s'`: frames sent before it are out, frames sent after it are not. */
  ghost predicate CutAt(s: State, s': State, cut: nat, sent: nat) {
    && |s.t.journal| <= cut <= |s'.t.journal| && |s.out| <= sent <= |s'.out| == |s'.sentAt|
    && (forall i :: 0 <= i < sent ==> s'.sentAt[i] <= cut)
    && (forall i :: sent <= i < |s'.out| ==> cut <= s'.sentAt[i])
  }

  ghost predicate Possible(s: State, m: Move) {
    m.Crash? ==> CutAt(s, Step(s, m.event, m.env), m.cut, m.sent)
  }

  function After(s: State, m: Move): State
    requires Possible(s, m)
  {
    var s' := Step(s, m.event, m.env);
    if m.Act? then s'
    else Boot(m.floor, s.lockExpiresAfter, s'.t.journal[..m.cut], s'.out[..m.sent], s'.sentAt[..m.sent])
  }

  ghost predicate PossibleRun(s: State, ms: seq<Move>)
    decreases |ms|
  {
    ms != [] ==> Possible(s, ms[0]) && PossibleRun(After(s, ms[0]), ms[1..])
  }

  function AfterAll(s: State, ms: seq<Move>): State
    requires PossibleRun(s, ms)
    decreases |ms|
  {
    if ms == [] then s else AfterAll(After(s, ms[0]), ms[1..])
  }

  ghost predicate Durable(s: State) {
    Trusted(s) && s.t.fence.hardened && s.t.fence.durable.Some?
  }

  // ----- A crash anywhere -----

  /** A crash may fall after any note: there are frames to go with it. */
  lemma CrashAnywhere(s: State, e: Event, env: Env, cut: nat)
    requires Durable(s) && |s.t.journal| <= cut <= |Step(s, e, env).t.journal|
    ensures exists sent :: CutAt(s, Step(s, e, env), cut, sent)
  {
    var s' := Step(s, e, env);
    StepFollows(s, e, env);
    forall i | 0 <= i < |s.out| ensures s'.sentAt[i] <= cut { assert s'.sentAt[i] == s.sentAt[i]; }
    FramesBy(s'.sentAt, cut, |s.out|);
    var sent :| |s.out| <= sent <= |s'.sentAt| && Parts(s'.sentAt, cut, sent);
    assert CutAt(s, s', cut, sent);
  }

  ghost predicate Parts(sentAt: seq<nat>, cut: nat, sent: nat)
    requires sent <= |sentAt|
  {
    && (forall i :: 0 <= i < sent ==> sentAt[i] <= cut)
    && (forall i :: sent <= i < |sentAt| ==> cut <= sentAt[i])
  }

  lemma {:induction false} FramesBy(sentAt: seq<nat>, cut: nat, low: nat)
    requires forall i, j :: 0 <= i < j < |sentAt| ==> sentAt[i] <= sentAt[j]
    requires low <= |sentAt| && forall i :: 0 <= i < low ==> sentAt[i] <= cut
    ensures exists sent :: low <= sent <= |sentAt| && Parts(sentAt, cut, sent)
    decreases |sentAt| - low
  {
    if low < |sentAt| && sentAt[low] < cut {
      FramesBy(sentAt, cut, low + 1);
    } else {
      assert Parts(sentAt, cut, low);
    }
  }

  lemma CutIncreasing(log: seq<Mint>, cut: seq<Mint>)
    requires Increasing(log) && cut <= log
    ensures Increasing(cut)
  {}

  /** A journal that is written ahead is enough to start again from. */
  lemma BootAuthority(floor: nat, lockExpiresAfter: Pos, journal: seq<Note>, out: seq<Frame>, sentAt: seq<nat>)
    requires WriteAhead(journal) && CellAfter(journal).Some? && Increasing(Taken(journal)) && Packed(journal)
    ensures Authority(Boot(floor, lockExpiresAfter, journal, out, sentAt).t)
  {
    TakenCovered(journal);
  }

  lemma CutPacked(journal: seq<Note>, cut: nat)
    requires Packed(journal) && cut <= |journal|
    ensures Packed(journal[..cut])
  {}

  /** What the journal says up to any point of it. */
  lemma CutTrusted(s: State, from: nat, cut: nat, sent: nat, floor: nat)
    requires Durable(s) && from <= cut <= |s.t.journal| && CellAfter(s.t.journal[..from]).Some?
    requires sent <= |s.out| && forall i :: 0 <= i < sent ==> s.sentAt[i] <= cut
    ensures var s' := Boot(floor, s.lockExpiresAfter, s.t.journal[..cut], s.out[..sent], s.sentAt[..sent]);
      && Durable(s') && CellAfter(s.t.journal[..from]).value <= s'.t.fence.durable.value
      && Taken(s.t.journal[..from]) <= Log(s'.t)
  {
    var j := s.t.journal[..cut];
    CutJournal(s.t.journal, cut);
    assert j[..from] == s.t.journal[..from];
    CutJournal(j, from);
    CutIncreasing(Log(s.t), Taken(j));
    CutPacked(s.t.journal, cut);
    BootAuthority(floor, s.lockExpiresAfter, j, s.out[..sent], s.sentAt[..sent]);
    CutInOrder(s, cut, sent);
  }

  lemma CutInOrder(s: State, cut: nat, sent: nat)
    requires SentInOrder(s.out, s.sentAt, s.t.journal) && cut <= |s.t.journal|
    requires sent <= |s.out| && forall i :: 0 <= i < sent ==> s.sentAt[i] <= cut
    ensures SentInOrder(s.out[..sent], s.sentAt[..sent], s.t.journal[..cut])
  {
    forall i | 0 <= i < sent ensures s.t.journal[..cut][..s.sentAt[i]] == s.t.journal[..s.sentAt[i]] {}
  }

  // ----- Every move -----

  /** Nothing taken or sent is forgotten, and the durable cell never goes back. */
  ghost predicate Remains(s: State, s': State) {
    && Durable(s') && Log(s.t) <= Log(s'.t) && s.out <= s'.out
    && s.t.fence.durable.Some? && s.t.fence.durable.value <= s'.t.fence.durable.value
  }

  /** A step, or any crash in it and a restart. */
  lemma AfterDurable(s: State, m: Move)
    requires Durable(s) && Possible(s, m)
    ensures Remains(s, After(s, m))
  {
    var s' := Step(s, m.event, m.env);
    StepFollows(s, m.event, m.env);
    if m.Crash? {
      assert s'.t.journal[..|s.t.journal|] == s.t.journal;
      CutTrusted(s', |s.t.journal|, m.cut, m.sent, m.floor);
    }
  }

  /** Over any number of incarnations, whatever the clocks read and wherever the crashes fall: every
      token taken for a key is higher than every earlier one, no token taken or told is above the
      durable cell, and the cell only rises. */
  lemma {:induction false} TokensOnlyGrow(s: State, ms: seq<Move>)
    requires Durable(s) && PossibleRun(s, ms)
    ensures var s' := AfterAll(s, ms);
      && Remains(s, s') && Increasing(Log(s'.t))
      && (forall m :: m in Log(s'.t) ==> m.token <= s'.t.fence.durable.value)
      && (forall f, k, n :: f in s'.out && Tells(f, k, n) ==> Mint(k, n) in Log(s'.t) && n <= s'.t.fence.durable.value)
    decreases |ms|
  {
    if ms != [] {
      AfterDurable(s, ms[0]);
      TokensOnlyGrow(After(s, ms[0]), ms[1..]);
    } else {
      TakenCovered(s.t.journal);
      forall f, k, n | f in s.out && Tells(f, k, n) ensures Mint(k, n) in Log(s.t) { ToldTaken(s, f, k, n); }
    }
  }

  lemma ToldTaken(s: State, f: Frame, k: Key, token: int)
    requires Trusted(s) && f in s.out && Tells(f, k, token)
    ensures Mint(k, token) in Log(s.t)
  {
    var i :| 0 <= i < |s.out| && s.out[i] == f;
    assert Mint(k, token) in Taken(s.t.journal[..s.sentAt[i]]);
    CutJournal(s.t.journal, s.sentAt[i]);
  }

  /** From a first start, on whatever the durable cell holds and with whatever floor. */
  lemma EveryIncarnation(floor: nat, stored: nat, lockExpiresAfter: Pos, ms: seq<Move>)
    requires PossibleRun(Start(Fence(true, floor, Max(floor, stored), Some(stored)), lockExpiresAfter), ms)
    ensures var s' := AfterAll(Start(Fence(true, floor, Max(floor, stored), Some(stored)), lockExpiresAfter), ms);
      && Durable(s') && Increasing(Log(s'.t)) && stored <= s'.t.fence.durable.value
      && (forall m :: m in Log(s'.t) ==> m.token <= s'.t.fence.durable.value)
      && (forall f, k, n :: f in s'.out && Tells(f, k, n) ==> Mint(k, n) in Log(s'.t) && n <= s'.t.fence.durable.value)
  {
    var fence := Fence(true, floor, Max(floor, stored), Some(stored));
    StartTrusted(fence, lockExpiresAfter);
    TokensOnlyGrow(Start(fence, lockExpiresAfter), ms);
  }
}

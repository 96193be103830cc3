/** The client's lock calls: timers, retries, broker frames, reconnects and close. Each call's
    callback is called exactly once, or the call still owns one live resolution and one timer. */
module ClientSpec {

  type Id = nat

  datatype Reason = Closed | Recovering | CannotContinue | MaxRetries | TimedOut | Unknown | BadKey | NoWait
    | FellThrough

  /** What a callback is called with. */
  datatype Answer = Granted | Failed(reason: Reason)

  /** What a resolution and its timer close over. */
  datatype Call = Call(key: string, maxRetries: nat, wait: bool)

  /** A broker frame for a lock request. */
  datatype Reply = Yes | No | NotSaid
  datatype Frame = Frame(id: Id, key: string, error: bool, acquired: Reply, reelection: bool)

  /** All that belongs to one call: whether it is in `resolutions`, has an armed timer, is in
      `timeouts` and in `giveups`; its opts.__retryCount; and, as history, what its callback was
      called with, the lock requests sent for it, and the re-election frames that made it ask again. */
  datatype Slot = Slot(call: Call, resolution: bool, timer: bool, timeout: bool, giveup: bool, retryCount: nat,
                       answers: seq<Answer>, sent: nat, reelected: nat)

  datatype Books = Books(isOpen: bool, recovering: bool, cannotContinue: bool, noRecover: bool, slots: map<Id, Slot>)

  /** Whether the client takes lock requests. */
  predicate Able(b: Books) {
    b.isOpen && !b.recovering && !b.cannotContinue
  }

  // ----- One call -----

  function CleanUp(s: Slot): Slot {
    s.(resolution := false, timer := false, timeout := false)
  }

  /** fireLockCallbackWithError: an error that names no uuid clears no books. */
  function FireWithError(s: Slot, named: bool, reason: Reason): Slot {
    (if named then CleanUp(s) else s).(answers := s.answers + [Failed(reason)])
  }

  function LockInternal(b: Books, s: Slot): Slot {
    if !b.isOpen then FireWithError(s, true, Closed)
    else if b.recovering then FireWithError(s, false, Recovering)
    else if b.cannotContinue then FireWithError(s, false, CannotContinue)
    else if s.retryCount >= s.call.maxRetries then FireWithError(s, true, MaxRetries)
    else s.(timer := true, resolution := true, sent := s.sent + 1)
  }

  function NewSlot(call: Call): Slot {
    Slot(call, false, false, false, false, 0, [], 0, 0)
  }

  /** Ask again, if that is possible and a retry is left. */
  function Retry(b: Books, s: Slot): Slot {
    if !b.isOpen then FireWithError(s.(timeout := true), true, Closed)
    else if s.retryCount >= s.call.maxRetries then FireWithError(s.(timeout := true), true, TimedOut)
    else LockInternal(b, s)
  }

  /** The request timer fires. */
  function TimerFired(b: Books, s: Slot): Slot {
    Retry(b, s.(timer := false, resolution := false, retryCount := s.retryCount + 1))
  }

  /** The resolution is called with a frame. */
  function Resolved(b: Books, s: Slot, f: Frame): Slot {
    if f.error then FireWithError(s, true, Unknown)
    else if f.key != s.call.key then FireWithError(s, true, BadKey)
    else if f.acquired.Yes? then CleanUp(s).(answers := s.answers + [Granted])
    else if f.reelection then LockInternal(b, CleanUp(s).(reelected := s.reelected + 1))
    else if f.acquired.No? then if s.call.wait then s else FireWithError(s.(giveup := true), true, NoWait)
    else FireWithError(s, true, FellThrough)
  }

  /** onData, for a frame that names the call. */
  function FrameArrived(b: Books, s: Slot, f: Frame): Slot {
    var s1 := s.(timeout := false);
    if s.giveup then s1.(timer := false, giveup := false, resolution := false)
    else if s.timeout || !s.resolution then s1
    else Resolved(b, s1, f)
  }

  /** Taken off the books, and its callback called with an error. */
  function Dismissed(s: Slot): Slot {
    FireWithError(s.(timer := false, resolution := false), true, Unknown)
  }

  // ----- The client -----

  /** The callback of one call may make another, under a fresh uuid. */
  datatype Ask = Ask(id: Id, call: Call)

  function Change(b: Books, u: Id, s: Slot): Books {
    b.(slots := b.slots[u := s])
  }

  function Lock(b: Books, a: Ask): Books {
    Change(b, a.id, LockInternal(b, NewSlot(a.call)))
  }

  /** Dismiss the calls of `order` one after another; `asks` are the calls their callbacks make.
      With `givingUp`, as `recover` does, a late frame for them is to be dropped. */
  function DismissAll(b: Books, order: seq<Id>, asks: map<Id, Ask>, givingUp: bool): Books
    requires forall u :: u in order ==> u in b.slots
    decreases |order|
  {
    if order == [] then b
    else
      var u := order[0];
      var b1 := Change(b, u, Dismissed(b.slots[u].(giveup := b.slots[u].giveup || givingUp)));
      var b2 := if u in asks then Lock(b1, asks[u]) else b1;
      DismissAll(b2, order[1..], asks, givingUp)
  }

  /** `order` goes through the live resolutions once. */
  ghost predicate Snapshot(b: Books, order: seq<Id>) {
    && (forall i, j :: 0 <= i < j < |order| ==> order[i] != order[j])
    && (forall u :: u in order <==> u in b.slots && b.slots[u].resolution)
  }

  /** The calls made by callbacks have uuids of their own. */
  ghost predicate Fresh(b: Books, order: seq<Id>, asks: map<Id, Ask>) {
    && (forall u :: u in order && u in asks ==> asks[u].id !in b.slots)
    && (forall u, v :: u in order && v in order && u in asks && v in asks && u != v ==> asks[u].id != asks[v].id)
  }

  ghost predicate FreshAsks(b: Books, asks: map<Id, Ask>) {
    && (forall u :: u in b.slots && b.slots[u].resolution && u in asks ==> asks[u].id !in b.slots)
    && (forall u, v :: u in b.slots && v in b.slots && u in asks && v in asks && u != v ==> asks[u].id != asks[v].id)
  }

  lemma FreshInOrder(b: Books, order: seq<Id>, asks: map<Id, Ask>)
    requires Snapshot(b, order) && FreshAsks(b, asks)
    ensures Fresh(b, order, asks)
  {}

  /** The connection is lost, and a new one is begun. */
  function Recover(b: Books, order: seq<Id>, asks: map<Id, Ask>): Books
    requires Snapshot(b, order)
  {
    if b.noRecover then b else DismissAll(b.(recovering := true), order, asks, true).(recovering := false)
  }

  function VersionMismatch(b: Books, order: seq<Id>, asks: map<Id, Ask>): Books
    requires Snapshot(b, order)
  {
    DismissAll(b.(cannotContinue := true), order, asks, false)
  }

  function EndConnection(b: Books, order: seq<Id>, asks: map<Id, Ask>): Books
    requires Snapshot(b, order)
  {
    DismissAll(b, order, asks, false).(isOpen := false)
  }

  /** The books are wiped. */
  function Wiped(s: Slot): Slot {
    s.(resolution := false, timer := false, timeout := false, giveup := false)
  }

  function Close(b: Books, order: seq<Id>, asks: map<Id, Ask>): Books
    requires Snapshot(b, order)
  {
    var b1 := DismissAll(b.(noRecover := true), order, asks, false);
    b1.(slots := map u | u in b1.slots :: Wiped(b1.slots[u]))
  }

  datatype Event =
    | LockCalled(ask: Ask)
    | TimerEvent(id: Id)
    | FrameEvent(frame: Frame)
    | ConnectedEvent
    | FirstErrorEvent
    | LostEvent(order: seq<Id>, asks: map<Id, Ask>)
    | MismatchEvent(order: seq<Id>, asks: map<Id, Ask>)
    | EndEvent(order: seq<Id>, asks: map<Id, Ask>)
    | CloseEvent(order: seq<Id>, asks: map<Id, Ask>)

  /** Uuids are fresh, only armed timers fire, and loops go through what is there. */
  ghost predicate Possible(b: Books, e: Event) {
    match e
    case LockCalled(a) => a.id !in b.slots
    case TimerEvent(u) => u in b.slots && b.slots[u].timer
    case FrameEvent(f) => true
    case ConnectedEvent => true
    case FirstErrorEvent => true
    case LostEvent(order, asks) => Snapshot(b, order) && Fresh(b, order, asks)
    case MismatchEvent(order, asks) => Snapshot(b, order) && Fresh(b, order, asks)
    case EndEvent(order, asks) => Snapshot(b, order) && Fresh(b, order, asks)
    case CloseEvent(order, asks) => Snapshot(b, order) && Fresh(b, order, asks)
  }

  function Step(b: Books, e: Event): Books
    requires Possible(b, e)
  {
    match e
    case LockCalled(a) => Lock(b, a)
    case TimerEvent(u) => Change(b, u, TimerFired(b, b.slots[u]))
    case FrameEvent(f) => if f.id in b.slots then Change(b, f.id, FrameArrived(b, b.slots[f.id], f)) else b
    case ConnectedEvent => b.(isOpen := true)
    case FirstErrorEvent => b.(noRecover := true)
    case LostEvent(order, asks) => Recover(b, order, asks)
    case MismatchEvent(order, asks) => VersionMismatch(b, order, asks)
    case EndEvent(order, asks) => EndConnection(b, order, asks)
    case CloseEvent(order, asks) => Close(b, order, asks)
  }

  // ----- What holds of every call -----

  /** Waiting: unanswered, one resolution and one timer, retries left. Done: answered once, nothing
      left that could answer it again. */
  ghost predicate Accounted(s: Slot) {
    && s.timer == s.resolution && !(s.resolution && s.giveup) && !(s.resolution && s.timeout)
    && (if s.resolution
        then s.answers == [] && s.retryCount < s.call.maxRetries && s.sent == s.retryCount + 1 + s.reelected
        else |s.answers| == 1 && s.sent <= s.call.maxRetries + s.reelected)
  }

  ghost predicate Valid(b: Books) {
    forall u :: u in b.slots ==> Accounted(b.slots[u])
  }

  /** Once done, a call's callback is not called again. */
  ghost predicate Settles(s: Slot, s': Slot) {
    s'.call == s.call && s.answers <= s'.answers && (!s.resolution ==> !s'.resolution && s'.answers == s.answers)
  }

  /** Asking on behalf of a call that owns nothing, and has a retry left or has just used its last. */
  lemma AskAccounted(b: Books, s: Slot)
    requires !s.timer && !s.resolution && !s.giveup && !s.timeout && s.answers == []
    requires s.retryCount <= s.call.maxRetries && s.sent == s.retryCount + s.reelected
    ensures Accounted(LockInternal(b, s)) && LockInternal(b, s).call == s.call
    ensures LockInternal(b, s).resolution <==> Able(b) && s.retryCount < s.call.maxRetries
  {}

  /** The first reason there is not to take a call. */
  function Refusal(b: Books): Reason {
    if !b.isOpen then Closed
    else if b.recovering then Recovering
    else if b.cannotContinue then CannotContinue
    else MaxRetries
  }

  /** A timer asks again if the client can and a retry is left; else the callback is told why not. */
  lemma TimerAccounted(b: Books, s: Slot)
    requires Accounted(s) && s.timer
    ensures var (s', last) := (TimerFired(b, s), s.retryCount + 1 >= s.call.maxRetries);
      !s'.resolution ==> s'.answers == [Failed(if b.isOpen && last then TimedOut else Refusal(b))]
    ensures Accounted(TimerFired(b, s)) && Settles(s, TimerFired(b, s))
    ensures TimerFired(b, s).resolution <==> Able(b) && s.retryCount + 1 < s.call.maxRetries
  {}

  /** What a frame that ends the wait tells the callback. */
  function Told(b: Books, s: Slot, f: Frame): Answer {
    if f.error then Failed(Unknown)
    else if f.key != s.call.key then Failed(BadKey)
    else if f.acquired.Yes? then Granted
    else if f.reelection then Failed(Refusal(b))
    else if f.acquired.No? then Failed(NoWait)
    else Failed(FellThrough)
  }

  /** Any frame: the callback of a waiting call is called with success exactly for a frame that says
      so, and a call that is done is not disturbed. A mark that the call timed out or was given up goes. */
  lemma FrameAccounted(b: Books, s: Slot, f: Frame)
    requires Accounted(s)
    ensures Accounted(FrameArrived(b, s, f)) && Settles(s, FrameArrived(b, s, f))
    ensures s.resolution && !FrameArrived(b, s, f).resolution ==> FrameArrived(b, s, f).answers == [Told(b, s, f)]
    ensures !FrameArrived(b, s, f).timeout && (s.giveup ==> !FrameArrived(b, s, f).giveup)
    ensures s.resolution ==>
      (Granted in FrameArrived(b, s, f).answers <==> !f.error && f.key == s.call.key && f.acquired.Yes?)
    ensures s.resolution ==> (FrameArrived(b, s, f).resolution <==>
      !f.error && f.key == s.call.key && !f.acquired.Yes?
      && (if f.reelection then Able(b) else f.acquired.No? && s.call.wait))
  {}

  /** Done, and told of an unknown error. */
  predicate IsDismissed(s: Slot) {
    !s.resolution && s.answers == [Failed(Unknown)]
  }

  lemma DismissedAccounted(s: Slot, givingUp: bool)
    requires Accounted(s) && s.resolution
    ensures var s' := Dismissed(s.(giveup := s.giveup || givingUp));
      Accounted(s') && Settles(s, s') && IsDismissed(s')
  {}

  // ----- Loops over all calls -----

  /** From `b` to `b'`: calls are only added, and every call that was done stays as it was. */
  ghost predicate Goes(b: Books, b': Books) {
    && b'.isOpen == b.isOpen && b'.recovering == b.recovering
    && b'.cannotContinue == b.cannotContinue && b'.noRecover == b.noRecover
    && forall u :: u in b.slots ==> u in b'.slots && Settles(b.slots[u], b'.slots[u])
  }

  /** What becomes of a call just made: when the client takes lock requests and a retry is allowed, it waits
      and has sent one; else its callback was called at once, with the first reason there is, and it has
      sent none. */
  ghost predicate JustAsked(b: Books, s: Slot) {
    && (s.resolution <==> Able(b) && s.call.maxRetries > 0)
    && (s.resolution ==> s.timer && s.answers == [] && s.sent == 1)
    && (!s.resolution ==> s.sent == 0 && !s.timer && s.answers == [Failed(Refusal(b))])
  }

  lemma LockAccounted(b: Books, a: Ask)
    requires Valid(b) && a.id !in b.slots
    ensures var b' := Lock(b, a);
      && Valid(b') && Goes(b, b') && b'.slots.Keys == b.slots.Keys + {a.id} && b'.slots[a.id].call == a.call
      && JustAsked(b, b'.slots[a.id])
      && forall u :: u in b.slots ==> b'.slots[u] == b.slots[u]
  {
    AskAccounted(b, NewSlot(a.call));
  }

  /** What one turn of the loop does. */
  lemma DismissOne(b: Books, u: Id, asks: map<Id, Ask>, givingUp: bool, b2: Books)
    requires Valid(b) && u in b.slots && b.slots[u].resolution && (u in asks ==> asks[u].id !in b.slots)
    requires var b1 := Change(b, u, Dismissed(b.slots[u].(giveup := b.slots[u].giveup || givingUp)));
      b2 == if u in asks then Lock(b1, asks[u]) else b1
    ensures Valid(b2) && Goes(b, b2) && Turned(b, b2, u, asks)
  {
    var s' := Dismissed(b.slots[u].(giveup := b.slots[u].giveup || givingUp));
    var b1 := Change(b, u, s');
    DismissedAccounted(b.slots[u], givingUp);
    ChangeGoes(b, u, s', b1);
    if u in asks { TurnTaken(b, b1, u, asks, b2); }
  }

  lemma ChangeGoes(b: Books, u: Id, s: Slot, b1: Books)
    requires Valid(b) && u in b.slots && Accounted(s)
    requires Settles(b.slots[u], s) && IsDismissed(s) && b1 == Change(b, u, s)
    ensures Valid(b1) && Goes(b, b1) && b1.slots.Keys == b.slots.Keys && IsDismissed(b1.slots[u])
    ensures forall v :: v in b.slots && v != u ==> b1.slots[v] == b.slots[v]
  {}

  lemma TurnTaken(b: Books, b1: Books, u: Id, asks: map<Id, Ask>, b2: Books)
    requires u in b.slots && u in asks && asks[u].id !in b.slots && b2 == Lock(b1, asks[u])
    requires Valid(b1) && Goes(b, b1) && b1.slots.Keys == b.slots.Keys && IsDismissed(b1.slots[u])
    requires forall v :: v in b.slots && v != u ==> b1.slots[v] == b.slots[v]
    ensures Valid(b2) && Goes(b, b2) && Turned(b, b2, u, asks)
  {
    LockAccounted(b1, asks[u]);
    GoesTransitive(b, b1, b2);
  }

  /** The call its callback makes, if any, waits when the client can take it on, and is refused at once when
      it cannot. */
  ghost predicate Taken(b: Books, b': Books, u: Id, asks: map<Id, Ask>) {
    u in asks ==>
      && asks[u].id in b'.slots && b'.slots[asks[u].id].call == asks[u].call
      && JustAsked(b, b'.slots[asks[u].id])
  }

  ghost predicate Turned(b: Books, b2: Books, u: Id, asks: map<Id, Ask>)
    requires u in b.slots
  {
    && b2.slots.Keys == b.slots.Keys + (if u in asks then {asks[u].id} else {})
    && IsDismissed(b2.slots[u]) && Taken(b, b2, u, asks)
    && forall v :: v in b.slots && v != u ==> b2.slots[v] == b.slots[v]
  }

  /** After the loop every call it went through is done, and the calls its callbacks made are those
      added. */
  ghost predicate AllTurned(b: Books, b': Books, order: seq<Id>, asks: map<Id, Ask>) {
    && (forall u :: u in order ==> u in b'.slots && IsDismissed(b'.slots[u]) && Taken(b, b', u, asks))
    && (forall u :: u in b.slots && u !in order ==> u in b'.slots && b'.slots[u] == b.slots[u])
    && (forall v :: v in b'.slots ==> v in b.slots || exists u :: u in order && u in asks && asks[u].id == v)
  }

  lemma {:induction false} DismissAllDone(b: Books, order: seq<Id>, asks: map<Id, Ask>, givingUp: bool)
    requires Valid(b) && Fresh(b, order, asks)
    requires forall i, j :: 0 <= i < j < |order| ==> order[i] != order[j]
    requires forall u :: u in order ==> u in b.slots && b.slots[u].resolution
    ensures var b' := DismissAll(b, order, asks, givingUp); Valid(b') && Goes(b, b') && AllTurned(b, b', order, asks)
    decreases |order|
  {
    if order != [] {
      var u, rest := order[0], order[1..];
      var b1 := Change(b, u, Dismissed(b.slots[u].(giveup := b.slots[u].giveup || givingUp)));
      var b2 := if u in asks then Lock(b1, asks[u]) else b1;
      assert forall v :: v in order <==> v == u || v in rest;
      DismissOne(b, u, asks, givingUp, b2);
      RestFresh(b, b2, u, order, asks);
      DismissAllDone(b2, rest, asks, givingUp);
      TurnedThenRest(b, b2, DismissAll(b2, rest, asks, givingUp), order, asks);
    }
  }

  lemma RestFresh(b: Books, b2: Books, u: Id, order: seq<Id>, asks: map<Id, Ask>)
    requires order != [] && u == order[0] && u in b.slots && Fresh(b, order, asks) && Turned(b, b2, u, asks)
    requires forall i, j :: 0 <= i < j < |order| ==> order[i] != order[j]
    requires forall v :: v in order ==> v in b.slots && b.slots[v].resolution
    ensures Fresh(b2, order[1..], asks)
    ensures forall v :: v in order[1..] ==> v in b2.slots && b2.slots[v].resolution
  {
    forall v | v in order[1..] ensures v in order && v != u {}
  }

  lemma GoesTransitive(b: Books, b2: Books, b': Books)
    requires Goes(b, b2) && Goes(b2, b')
    ensures Goes(b, b')
  {}

  lemma TurnedThenRest(b: Books, b2: Books, b': Books, order: seq<Id>, asks: map<Id, Ask>)
    requires order != [] && order[0] in b.slots && order[0] !in order[1..]
    requires Goes(b, b2) && Goes(b2, b') && Turned(b, b2, order[0], asks) && AllTurned(b2, b', order[1..], asks)
    requires Fresh(b, order, asks) && forall v :: v in order ==> v in b.slots
    ensures Goes(b, b') && AllTurned(b, b', order, asks)
  {
    var u := order[0];
    GoesTransitive(b, b2, b');
    forall v | v in order ensures v in b'.slots && IsDismissed(b'.slots[v]) && Taken(b, b', v, asks) {
      if v == u {
        assert u in b2.slots && u !in order[1..];
        assert u in asks ==> asks[u].id !in order[1..];
      } else {
        assert v in order[1..];
      }
    }
    forall v | v in b'.slots && v !in b.slots ensures exists w :: w in order && w in asks && asks[w].id == v {
      if v !in b2.slots {
        var w :| w in order[1..] && w in asks && asks[w].id == v;
        assert w in order;
      }
    }
    forall v | v in b.slots && v !in order
      ensures v in b'.slots && b'.slots[v] == b.slots[v]
    {
      assert v !in order[1..];
    }
  }

  // ----- Every event -----

  lemma LoopDone(b: Books, b0: Books, order: seq<Id>, asks: map<Id, Ask>, givingUp: bool)
    requires Valid(b) && b0.slots == b.slots && Snapshot(b, order) && Fresh(b, order, asks)
    ensures var b' := DismissAll(b0, order, asks, givingUp);
      && Valid(b') && Goes(b0, b') && AllTurned(b0, b', order, asks)
      && (forall u :: u in b.slots ==> u in b'.slots && !b'.slots[u].resolution && |b'.slots[u].answers| == 1)
      && (forall u :: u in b.slots && b.slots[u].resolution ==> IsDismissed(b'.slots[u]))
  {
    DismissAllDone(b0, order, asks, givingUp);
    var b' := DismissAll(b0, order, asks, givingUp);
    assert forall u :: u in b'.slots ==> Accounted(b'.slots[u]);
  }

  /** A connection lost (and to be made anew), another version, an end, and a close: every call that waited is
      told of an unknown error, and every call that was done stays as it was. */
  lemma LoopTells(b: Books, e: Event, u: Id)
    requires Valid(b) && Possible(b, e) && u in b.slots
    requires e.MismatchEvent? || e.EndEvent? || e.CloseEvent? || (e.LostEvent? && !b.noRecover)
    ensures var b' := Step(b, e);
      && u in b'.slots && !b'.slots[u].resolution
      && b'.slots[u].answers == if b.slots[u].resolution then [Failed(Unknown)] else b.slots[u].answers
  {
    match e {
      case LostEvent(order, asks) => LoopDone(b, b.(recovering := true), order, asks, true);
      case MismatchEvent(order, asks) => LoopDone(b, b.(cannotContinue := true), order, asks, false);
      case EndEvent(order, asks) => LoopDone(b, b, order, asks, false);
      case CloseEvent(order, asks) => LoopDone(b, b.(noRecover := true), order, asks, false);
    }
  }

  /** A call made while the client closes is wiped with the books: it was taken on, and its callback
      is never called. */
  ghost predicate Loses(b: Books, e: Event) {
    e.CloseEvent? && Able(b) && exists u :: u in e.order && u in e.asks && e.asks[u].call.maxRetries > 0
  }

  /** Every call made before is still there, and one that was done stays as it was. */
  ghost predicate AllSettle(b: Books, b': Books) {
    forall u :: u in b.slots ==> u in b'.slots && Settles(b.slots[u], b'.slots[u])
  }

  lemma ChangeValid(b: Books, u: Id, s: Slot)
    requires Valid(b) && u in b.slots && Accounted(s) && Settles(b.slots[u], s)
    ensures Valid(Change(b, u, s)) && AllSettle(b, Change(b, u, s))
  {}

  /** The events that concern one call, or none. */
  lemma CallValid(b: Books, e: Event)
    requires Valid(b) && Possible(b, e)
    requires e.LockCalled? || e.TimerEvent? || e.FrameEvent? || e.ConnectedEvent? || e.FirstErrorEvent?
    ensures Valid(Step(b, e)) && AllSettle(b, Step(b, e))
  {
    match e {
      case LockCalled(a) => LockAccounted(b, a);
      case TimerEvent(u) =>
        TimerAccounted(b, b.slots[u]);
        ChangeValid(b, u, TimerFired(b, b.slots[u]));
      case FrameEvent(f) =>
        if f.id in b.slots {
          FrameAccounted(b, b.slots[f.id], f);
          ChangeValid(b, f.id, FrameArrived(b, b.slots[f.id], f));
        }
      case ConnectedEvent =>
      case FirstErrorEvent =>
    }
  }

  /** The loops but for that of `close`. */
  lemma LoopValid(b: Books, e: Event)
    requires Valid(b) && Possible(b, e) && (e.LostEvent? || e.MismatchEvent? || e.EndEvent?)
    ensures Valid(Step(b, e)) && AllSettle(b, Step(b, e))
  {
    match e {
      case LostEvent(order, asks) => LoopDone(b, b.(recovering := true), order, asks, true);
      case MismatchEvent(order, asks) => LoopDone(b, b.(cannotContinue := true), order, asks, false);
      case EndEvent(order, asks) => LoopDone(b, b, order, asks, false);
    }
  }

  /** Every event keeps every call accounted for, except a close whose callbacks make a call that the
      client can take on. */
  lemma StepValid(b: Books, e: Event)
    requires Valid(b) && Possible(b, e)
    ensures Valid(Step(b, e)) <==> !Loses(b, e)
    ensures AllSettle(b, Step(b, e))
  {
    if e.CloseEvent? {
      CloseAnswersAll(b, e.order, e.asks);
    } else if e.LostEvent? || e.MismatchEvent? || e.EndEvent? {
      LoopValid(b, e);
    } else {
      CallValid(b, e);
    }
  }

  /** Nothing of the call is in the client's tables. */
  predicate Clear(s: Slot) {
    !s.resolution && !s.timer && !s.timeout && !s.giveup
  }

  lemma WipedAccounted(s: Slot)
    requires Accounted(s)
    ensures Accounted(Wiped(s)) <==> !s.resolution
  {}

  /** Wiping the books loses exactly the calls that wait. */
  lemma WipeValid(b1: Books, b2: Books)
    requires Valid(b1) && b2 == b1.(slots := map u | u in b1.slots :: Wiped(b1.slots[u]))
    ensures Valid(b2) <==> forall u :: u in b1.slots ==> !b1.slots[u].resolution
    ensures forall u :: u in b1.slots ==>
      Settles(b1.slots[u], b2.slots[u]) && Clear(b2.slots[u])
  {
    forall u | u in b1.slots
      ensures Accounted(b2.slots[u]) <==> !b1.slots[u].resolution
    {
      WipedAccounted(b1.slots[u]);
    }
  }

  lemma TakenOrNot(b: Books, b1: Books, order: seq<Id>, asks: map<Id, Ask>)
    requires AllTurned(b, b1, order, asks) && Fresh(b, order, asks)
    requires forall u :: u in b.slots ==> u in b1.slots && !b1.slots[u].resolution
    ensures (forall v :: v in b1.slots ==> !b1.slots[v].resolution) <==>
      !(Able(b) && exists u :: u in order && u in asks && asks[u].call.maxRetries > 0)
  {
    if Able(b) && exists u :: u in order && u in asks && asks[u].call.maxRetries > 0 {
      var u :| u in order && u in asks && asks[u].call.maxRetries > 0;
      assert Taken(b, b1, u, asks);
    } else {
      forall v | v in b1.slots ensures !b1.slots[v].resolution {
        if v !in b.slots {
          var u :| u in order && u in asks && asks[u].id == v;
          assert Taken(b, b1, u, asks);
        }
      }
    }
  }

  /** `b1` is what the loop of `close` leaves, `b2` what is left at last. */
  lemma CloseValid(b: Books, b1: Books, b2: Books, order: seq<Id>, asks: map<Id, Ask>)
    requires Valid(b) && Snapshot(b, order) && Fresh(b, order, asks)
    requires b1 == DismissAll(b.(noRecover := true), order, asks, false)
    requires b2 == b1.(slots := map u | u in b1.slots :: Wiped(b1.slots[u]))
    ensures Valid(b2) <==> !Loses(b, CloseEvent(order, asks))
    ensures forall u :: u in b.slots ==> u in b2.slots && Settles(b.slots[u], b2.slots[u]) && |b2.slots[u].answers| == 1
    ensures forall u :: u in b2.slots ==> Clear(b2.slots[u])
  {
    LoopDone(b, b.(noRecover := true), order, asks, false);
    WipeValid(b1, b2);
    WipedSettles(b, b1, b2);
    TakenOrNot(b.(noRecover := true), b1, order, asks);
    LosesOrNot(b, order, asks);
  }

  lemma LosesOrNot(b: Books, order: seq<Id>, asks: map<Id, Ask>)
    ensures Loses(b, CloseEvent(order, asks)) <==>
      Able(b.(noRecover := true)) && exists u :: u in order && u in asks && asks[u].call.maxRetries > 0
  {}

  lemma WipedSettles(b: Books, b1: Books, b2: Books)
    requires Goes(b.(noRecover := true), b1) && b2 == b1.(slots := map u | u in b1.slots :: Wiped(b1.slots[u]))
    requires forall u :: u in b.slots ==> u in b1.slots && !b1.slots[u].resolution && |b1.slots[u].answers| == 1
    ensures forall u :: u in b.slots ==> u in b2.slots && Settles(b.slots[u], b2.slots[u]) && |b2.slots[u].answers| == 1
  {
    forall u | u in b.slots ensures u in b2.slots && Settles(b.slots[u], b2.slots[u]) && |b2.slots[u].answers| == 1 {
      assert Settles(b.slots[u], b1.slots[u]);
    }
  }

  /** After `close` no call waits, nothing is left in the tables, and every call made before it was answered
      exactly once. */
  lemma CloseAnswersAll(b: Books, order: seq<Id>, asks: map<Id, Ask>)
    requires Valid(b) && Snapshot(b, order) && Fresh(b, order, asks)
    ensures var b2 := Close(b, order, asks);
      && (Valid(b2) <==> !Loses(b, CloseEvent(order, asks)))
      && (forall u :: u in b.slots ==> u in b2.slots && Settles(b.slots[u], b2.slots[u]) && |b2.slots[u].answers| == 1)
      && forall u :: u in b2.slots ==> Clear(b2.slots[u])
  {
    CloseValid(b, DismissAll(b.(noRecover := true), order, asks, false), Close(b, order, asks), order, asks);
  }

  // ----- Whether the client takes lock requests -----

  lemma {:induction false} DismissAllSwitches(b: Books, order: seq<Id>, asks: map<Id, Ask>, givingUp: bool)
    requires forall u :: u in order ==> u in b.slots
    ensures var b' := DismissAll(b, order, asks, givingUp);
      && b'.isOpen == b.isOpen && b'.recovering == b.recovering
      && b'.cannotContinue == b.cannotContinue && b'.noRecover == b.noRecover
    decreases |order|
  {
    if order != [] {
      var u := order[0];
      var b1 := Change(b, u, Dismissed(b.slots[u].(giveup := b.slots[u].giveup || givingUp)));
      var b2 := if u in asks then Lock(b1, asks[u]) else b1;
      DismissAllSwitches(b2, order[1..], asks, givingUp);
    }
  }

  /** What each event does to the switches: a connection made opens the client, one ended closes it, a version
      mismatch is for good, and a lost connection, once dealt with, changes nothing. */
  lemma StepSwitches(b: Books, e: Event)
    requires Possible(b, e)
    ensures var b' := Step(b, e);
      && b'.isOpen == (e.ConnectedEvent? || (b.isOpen && !e.EndEvent?))
      && b'.cannotContinue == (b.cannotContinue || e.MismatchEvent?)
      && b'.noRecover == (b.noRecover || e.FirstErrorEvent? || e.CloseEvent?)
      && b'.recovering == (b.recovering && !(e.LostEvent? && !b.noRecover))
  {
    match e {
      case LostEvent(order, asks) => DismissAllSwitches(b.(recovering := true), order, asks, true);
      case MismatchEvent(order, asks) => DismissAllSwitches(b.(cannotContinue := true), order, asks, false);
      case EndEvent(order, asks) => DismissAllSwitches(b, order, asks, false);
      case CloseEvent(order, asks) => DismissAllSwitches(b.(noRecover := true), order, asks, false);
      case _ =>
    }
  }

  /** The call made by the callback of a call that a loop dismisses: while the client recovers, or has found a
      mismatch, it is refused at once. */
  lemma RefusedMeanwhile(b: Books, e: Event, u: Id)
    requires Valid(b) && Possible(b, e)
    requires (e.LostEvent? && !b.noRecover) || e.MismatchEvent?
    requires u in e.order && u in e.asks
    ensures var b' := Step(b, e);
      && e.asks[u].id in b'.slots
      && b'.slots[e.asks[u].id].answers ==
        [Failed(if !b.isOpen then Closed else if e.LostEvent? || b.recovering then Recovering else CannotContinue)]
      && b'.slots[e.asks[u].id].sent == 0
  {
    match e {
      case LostEvent(order, asks) =>
        LoopDone(b, b.(recovering := true), order, asks, true);
        assert Taken(b.(recovering := true), DismissAll(b.(recovering := true), order, asks, true), u, asks);
      case MismatchEvent(order, asks) =>
        LoopDone(b, b.(cannotContinue := true), order, asks, false);
        assert Taken(b.(cannotContinue := true), DismissAll(b.(cannotContinue := true), order, asks, false), u, asks);
    }
  }

  ghost predicate PossibleRun(b: Books, es: seq<Event>)
    decreases |es|
  {
    es != [] ==> Possible(b, es[0]) && !Loses(b, es[0]) && PossibleRun(Step(b, es[0]), es[1..])
  }

  function Run(b: Books, es: seq<Event>): Books
    requires PossibleRun(b, es)
    decreases |es|
  {
    if es == [] then b else Run(Step(b, es[0]), es[1..])
  }

  /** Under any interleaving: every call ever made was answered exactly once or still waits, with one
      resolution and one timer; and it sent at most `maxRetries` lock requests beyond those that
      re-election frames made it send. */
  lemma {:induction false} OneCallback(b: Books, es: seq<Event>)
    requires Valid(b) && PossibleRun(b, es)
    ensures Valid(Run(b, es))
    ensures forall u :: u in Run(b, es).slots ==> var s := Run(b, es).slots[u];
      && (if s.resolution then s.timer && s.answers == [] else !s.timer && |s.answers| == 1)
      && s.sent <= s.call.maxRetries + s.reelected
    ensures forall u :: u in b.slots ==> u in Run(b, es).slots && Settles(b.slots[u], Run(b, es).slots[u])
    decreases |es|
  {
    if es != [] {
      StepValid(b, es[0]);
      OneCallback(Step(b, es[0]), es[1..]);
    }
  }

  /** The client is open: it was connected, and has not been ended since. */
  ghost predicate OpenAfter(isOpen: bool, es: seq<Event>) {
    || (isOpen && forall i :: 0 <= i < |es| ==> !es[i].EndEvent?)
    || exists i :: 0 <= i < |es| && es[i].ConnectedEvent? && forall j :: i < j < |es| ==> !es[j].EndEvent?
  }

  ghost predicate MismatchIn(es: seq<Event>) {
    exists i :: 0 <= i < |es| && es[i].MismatchEvent?
  }

  lemma OpenCons(isOpen: bool, es: seq<Event>)
    requires es != []
    ensures OpenAfter(isOpen, es) <==> OpenAfter(es[0].ConnectedEvent? || (isOpen && !es[0].EndEvent?), es[1..])
  {
    if OpenAfter(isOpen, es) { OpenStays(isOpen, es); }
    if OpenAfter(es[0].ConnectedEvent? || (isOpen && !es[0].EndEvent?), es[1..]) { OpenWas(isOpen, es); }
  }

  lemma OpenStays(isOpen: bool, es: seq<Event>)
    requires es != [] && OpenAfter(isOpen, es)
    ensures OpenAfter(es[0].ConnectedEvent? || (isOpen && !es[0].EndEvent?), es[1..])
  {
    var rest := es[1..];
    if !(isOpen && forall i :: 0 <= i < |es| ==> !es[i].EndEvent?) {
      var i :| 0 <= i < |es| && es[i].ConnectedEvent? && forall j :: i < j < |es| ==> !es[j].EndEvent?;
      if i > 0 { assert rest[i - 1] == es[i]; }
    }
  }

  lemma OpenWas(isOpen: bool, es: seq<Event>)
    requires es != [] && OpenAfter(es[0].ConnectedEvent? || (isOpen && !es[0].EndEvent?), es[1..])
    ensures OpenAfter(isOpen, es)
  {
    var rest := es[1..];
    if i :| 0 <= i < |rest| && rest[i].ConnectedEvent? && forall j :: i < j < |rest| ==> !rest[j].EndEvent? {
      assert es[i + 1] == rest[i];
      forall j | i + 1 < j < |es| ensures !es[j].EndEvent? { assert es[j] == rest[j - 1]; }
    } else {
      forall j | 0 < j < |es| ensures !es[j].EndEvent? { assert es[j] == rest[j - 1]; }
    }
  }

  lemma MismatchCons(es: seq<Event>)
    requires es != []
    ensures MismatchIn(es) <==> es[0].MismatchEvent? || MismatchIn(es[1..])
  {
    if i :| 0 < i < |es| && es[i].MismatchEvent? { assert es[1..][i - 1] == es[i]; }
    if i :| 0 <= i < |es[1..]| && es[1..][i].MismatchEvent? { assert es[i + 1] == es[1..][i]; }
  }

  lemma {:induction false} RunSwitches(b: Books, es: seq<Event>)
    requires Valid(b) && PossibleRun(b, es) && !b.recovering
    ensures var b' := Run(b, es);
      && b'.isOpen == OpenAfter(b.isOpen, es) && b'.cannotContinue == (b.cannotContinue || MismatchIn(es))
      && !b'.recovering && Valid(b')
    decreases |es|
  {
    if es != [] {
      StepValid(b, es[0]);
      StepSwitches(b, es[0]);
      RunSwitches(Step(b, es[0]), es[1..]);
      OpenCons(b.isOpen, es);
      MismatchCons(es);
    }
  }

  /** After any run, reconnections included, the next lock call with a retry allowed waits, and has sent exactly
      one request, if and only if the client was connected, was not ended since, and never met another
      version; else its callback is called at once, and nothing is sent. */
  lemma NextCall(b: Books, es: seq<Event>, a: Ask)
    requires Valid(b) && PossibleRun(b, es) && !b.recovering && a.id !in Run(b, es).slots && a.call.maxRetries > 0
    ensures var s := Step(Run(b, es), LockCalled(a)).slots[a.id];
      && (s.resolution <==> OpenAfter(b.isOpen, es) && !b.cannotContinue && !MismatchIn(es))
      && (s.resolution ==> s.timer && s.answers == [] && s.sent == 1)
      && (!s.resolution ==> s.sent == 0)
      && (!s.resolution ==> s.answers == [Failed(if OpenAfter(b.isOpen, es) then CannotContinue else Closed)])
  {
    RunSwitches(b, es);
    LockAccounted(Run(b, es), a);
  }

  const WAITING: Call := Call("key", 1, true)

  /** A waiting call whose callback, run by `close`, makes another one. */
  const CLOSING: Books :=
    Books(true, false, false, false, map[1 := Slot(WAITING, true, true, false, false, 0, [], 1, 0)])
  const ASKS_AGAIN: map<Id, Ask> := map[1 := Ask(2, WAITING)]

  /** The second call is never answered. */
  lemma CloseLosesCall()
    ensures Valid(CLOSING) && Possible(CLOSING, CloseEvent([1], ASKS_AGAIN))
    ensures var b := Step(CLOSING, CloseEvent([1], ASKS_AGAIN));
      2 in b.slots && b.slots[2].answers == [] && !b.slots[2].resolution && !b.slots[2].timer
  {
    var b0 := CLOSING.(noRecover := true);
    var b1 := Lock(Change(b0, 1, Dismissed(b0.slots[1].(giveup := false))), Ask(2, WAITING));
    assert [1][1..] == [];
    assert DismissAll(b0, [1], ASKS_AGAIN, false) == DismissAll(b1, [], ASKS_AGAIN, false) == b1;
    assert b1.slots[2].answers == [];
  }
}

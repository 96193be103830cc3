/** The client as it runs: its tables of resolutions, timers, timeouts and give-ups, changed in
    place. Each method does to them what the function of ClientSpec says. */
module Clients {
  import opened ClientSpec

  /** What the closures of a call hold: its arguments, and its options' __retryCount; and history. */
  datatype Track = Track(call: Call, retryCount: nat, answers: seq<Answer>, sent: nat, reelected: nat)

  /** `timers` are the armed ones. */
  datatype Tables = Tables(
    resolutions: set<Id>,
    timers: set<Id>,
    timeouts: set<Id>,
    giveups: set<Id>,
    tracks: map<Id, Track>)

  /** The tables speak of calls that were made. */
  ghost predicate Ok(t: Tables) {
    t.resolutions + t.timers + t.timeouts + t.giveups <= t.tracks.Keys
  }

  /** All that the tables say of one call. */
  function SlotOf(t: Tables, u: Id): Slot
    requires u in t.tracks
  {
    Slot(t.tracks[u].call, u in t.resolutions, u in t.timers, u in t.timeouts, u in t.giveups, t.tracks[u].retryCount,
         t.tracks[u].answers, t.tracks[u].sent, t.tracks[u].reelected)
  }

  function Slots(t: Tables): map<Id, Slot> {
    map u | u in t.tracks :: SlotOf(t, u)
  }

  /** From `t` to `t'` the call `u` comes to be as `s` says, and the others stay. */
  ghost predicate Becomes(t: Tables, t': Tables, u: Id, s: Slot) {
    && Ok(t') && t'.tracks.Keys == t.tracks.Keys && u in t.tracks && SlotOf(t', u) == s
    && forall v :: v in t.tracks && v != u ==> SlotOf(t', v) == SlotOf(t, v)
  }

  lemma BecomesTwice(t: Tables, t1: Tables, t2: Tables, u: Id, s1: Slot, s2: Slot)
    requires Becomes(t, t1, u, s1) && Becomes(t1, t2, u, s2)
    ensures Becomes(t, t2, u, s2)
  {}

  class Client {
    var isOpen: bool
    var recovering: bool
    var cannotContinue: bool
    var noRecover: bool
    var resolutions: set<Id>
    var timers: set<Id>
    var timeouts: set<Id>
    var giveups: set<Id>
    var tracks: map<Id, Track>

    ghost function Tb(): Tables
      reads this
    {
      Tables(resolutions, timers, timeouts, giveups, tracks)
    }

    /** The client's switches, without its calls. */
    ghost function Flags(): Books
      reads this
    {
      Books(isOpen, recovering, cannotContinue, noRecover, map[])
    }

    ghost function St(): Books
      requires Ok(Tb())
      reads this
    {
      Flags().(slots := Slots(Tb()))
    }

    constructor ()
      ensures Ok(Tb()) && St() == Books(false, false, false, false, map[])
    {
      isOpen, recovering, cannotContinue, noRecover := false, false, false, false;
      resolutions, timers, timeouts, giveups, tracks := {}, {}, {}, {}, map[];
    }

    // ----- One call -----

    method CleanUpCall(u: Id)
      requires Ok(Tb()) && u in tracks
      modifies `timers, `timeouts, `resolutions
      ensures Becomes(old(Tb()), Tb(), u, CleanUp(SlotOf(old(Tb()), u)))
    {
      timers := timers - {u};
      timeouts := timeouts - {u};
      resolutions := resolutions - {u};
    }

    /** The callback is called. */
    method CallBack(u: Id, answer: Answer)
      requires Ok(Tb()) && u in tracks
      modifies `tracks
      ensures Becomes(old(Tb()), Tb(), u, SlotOf(old(Tb()), u).(answers := old(tracks)[u].answers + [answer]))
    {
      tracks := tracks[u := tracks[u].(answers := tracks[u].answers + [answer])];
    }

    method FireLockCallbackWithError(u: Id, named: bool, reason: Reason)
      requires Ok(Tb()) && u in tracks
      modifies `timers, `timeouts, `resolutions, `tracks
      ensures Becomes(old(Tb()), Tb(), u, FireWithError(SlotOf(old(Tb()), u), named, reason))
    {
      if named {
        CleanUpCall(u);
      }
      CallBack(u, Failed(reason));
    }

    /** Set the timer and the resolution, and write the request. */
    method Request(u: Id)
      requires Ok(Tb()) && u in tracks
      modifies `timers, `resolutions, `tracks
      ensures var s := SlotOf(old(Tb()), u);
        Becomes(old(Tb()), Tb(), u, s.(timer := true, resolution := true, sent := s.sent + 1))
    {
      timers := timers + {u};
      resolutions := resolutions + {u};
      tracks := tracks[u := tracks[u].(sent := tracks[u].sent + 1)];
    }

    method AskBroker(u: Id)
      requires Ok(Tb()) && u in tracks
      modifies `timers, `timeouts, `resolutions, `tracks
      ensures Becomes(old(Tb()), Tb(), u, LockInternal(Flags(), SlotOf(old(Tb()), u)))
    {
      if !isOpen {
        FireLockCallbackWithError(u, true, Closed);
      } else if recovering {
        FireLockCallbackWithError(u, false, Recovering);
      } else if cannotContinue {
        FireLockCallbackWithError(u, false, CannotContinue);
      } else if tracks[u].retryCount >= tracks[u].call.maxRetries {
        FireLockCallbackWithError(u, true, MaxRetries);
      } else {
        Request(u);
      }
    }

    /** The timer is gone, and with it the resolution; one retry more is counted. */
    method Expire(u: Id)
      requires Ok(Tb()) && u in timers
      modifies `timers, `resolutions, `tracks
      ensures var s := SlotOf(old(Tb()), u);
        Becomes(old(Tb()), Tb(), u, s.(timer := false, resolution := false, retryCount := s.retryCount + 1))
    {
      timers := timers - {u};
      resolutions := resolutions - {u};
      tracks := tracks[u := tracks[u].(retryCount := tracks[u].retryCount + 1)];
    }

    method MarkTimedOut(u: Id)
      requires Ok(Tb()) && u in tracks
      modifies `timeouts
      ensures Becomes(old(Tb()), Tb(), u, SlotOf(old(Tb()), u).(timeout := true))
    {
      timeouts := timeouts + {u};
    }

    /** The last retry is over. */
    method TimeOut(u: Id, reason: Reason)
      requires Ok(Tb()) && u in tracks
      modifies `timers, `timeouts, `resolutions, `tracks
      ensures Becomes(old(Tb()), Tb(), u, FireWithError(SlotOf(old(Tb()), u).(timeout := true), true, reason))
    {
      MarkTimedOut(u);
      FireLockCallbackWithError(u, true, reason);
    }

    method OnTimer(u: Id)
      requires Ok(Tb()) && u in timers
      modifies `timers, `timeouts, `resolutions, `tracks
      ensures Becomes(old(Tb()), Tb(), u, TimerFired(Flags(), SlotOf(old(Tb()), u)))
    {
      Expire(u);
      RetryCall(u);
    }

    method RetryCall(u: Id)
      requires Ok(Tb()) && u in tracks
      modifies `timers, `timeouts, `resolutions, `tracks
      ensures Becomes(old(Tb()), Tb(), u, Retry(Flags(), SlotOf(old(Tb()), u)))
    {
      if !isOpen {
        TimeOut(u, Closed);
      } else if tracks[u].retryCount >= tracks[u].call.maxRetries {
        TimeOut(u, TimedOut);
      } else {
        AskBroker(u);
      }
    }

    method GiveUp(u: Id)
      requires Ok(Tb()) && u in tracks
      modifies `giveups
      ensures Becomes(old(Tb()), Tb(), u, SlotOf(old(Tb()), u).(giveup := true))
    {
      giveups := giveups + {u};
    }

    /** The broker wants the request again. */
    method AskAgain(u: Id)
      requires Ok(Tb()) && u in tracks
      modifies `timers, `timeouts, `resolutions, `tracks
      ensures var s := SlotOf(old(Tb()), u);
        Becomes(old(Tb()), Tb(), u, LockInternal(Flags(), CleanUp(s).(reelected := s.reelected + 1)))
    {
      ghost var t, s := Tb(), SlotOf(Tb(), u);
      CleanUpCall(u);
      ghost var t1 := Tb();
      CountReelection(u);
      BecomesTwice(t, t1, Tb(), u, CleanUp(s), CleanUp(s).(reelected := s.reelected + 1));
      ghost var t2 := Tb();
      AskBroker(u);
      BecomesTwice(t, t2, Tb(), u, CleanUp(s).(reelected := s.reelected + 1),
        LockInternal(Flags(), CleanUp(s).(reelected := s.reelected + 1)));
    }

    method CountReelection(u: Id)
      requires Ok(Tb()) && u in tracks
      modifies `tracks
      ensures var s := SlotOf(old(Tb()), u); Becomes(old(Tb()), Tb(), u, s.(reelected := s.reelected + 1))
    {
      tracks := tracks[u := tracks[u].(reelected := tracks[u].reelected + 1)];
    }

    method Resolve(u: Id, f: Frame)
      requires Ok(Tb()) && u in resolutions
      modifies `timers, `timeouts, `resolutions, `tracks, `giveups
      ensures Becomes(old(Tb()), Tb(), u, Resolved(Flags(), SlotOf(old(Tb()), u), f))
    {
      var call := tracks[u].call;
      if f.error {
        FireLockCallbackWithError(u, true, Unknown);
      } else if f.key != call.key {
        FireLockCallbackWithError(u, true, BadKey);
      } else if f.acquired.Yes? {
        CleanUpCall(u);
        CallBack(u, Granted);
      } else if f.reelection {
        AskAgain(u);
      } else if f.acquired.No? {
        if !call.wait {
          GiveUp(u);
          FireLockCallbackWithError(u, true, NoWait);
        }
      } else {
        FireLockCallbackWithError(u, true, FellThrough);
      }
    }

    /** A frame that names no call changes nothing. */
    method OnData(f: Frame)
      requires Ok(Tb())
      modifies `timers, `timeouts, `resolutions, `tracks, `giveups
      ensures f.id in old(tracks) ==> Becomes(old(Tb()), Tb(), f.id, FrameArrived(Flags(), SlotOf(old(Tb()), f.id), f))
      ensures f.id !in old(tracks) ==> Tb() == old(Tb())
    {
      var u := f.id;
      var late := u in timeouts;
      ForgetTimeout(u);
      if u in giveups {
        DropGivenUp(u);
      } else if !late && u in resolutions {
        Resolve(u, f);
      }
    }

    method ForgetTimeout(u: Id)
      requires Ok(Tb())
      modifies `timeouts
      ensures timeouts == old(timeouts) - {u}
      ensures Ok(Tb()) && (u in tracks ==> Becomes(old(Tb()), Tb(), u, SlotOf(old(Tb()), u).(timeout := false)))
    {
      timeouts := timeouts - {u};
    }

    method DropGivenUp(u: Id)
      requires Ok(Tb()) && u in tracks
      modifies `timers, `resolutions, `giveups
      ensures Becomes(old(Tb()), Tb(), u, SlotOf(old(Tb()), u).(timer := false, giveup := false, resolution := false))
    {
      timers := timers - {u};
      giveups := giveups - {u};
      resolutions := resolutions - {u};
    }

    // ----- All calls -----

    /** lock, under a fresh uuid. */
    method LockCall(a: Ask)
      requires Ok(Tb()) && a.id !in tracks
      modifies `timers, `timeouts, `resolutions, `tracks
      ensures Ok(Tb()) && St() == Lock(old(St()), a)
    {
      ghost var b := St();
      AddTrack(a);
      ghost var t1 := Tb();
      AskBroker(a.id);
      ChangedSlot(t1, Tb(), a.id, LockInternal(Flags(), NewSlot(a.call)));
      LockBooks(b, Flags(), Slots(t1), Slots(Tb()), a);
    }

    method AddTrack(a: Ask)
      requires Ok(Tb()) && a.id !in tracks
      modifies `tracks
      ensures Ok(Tb()) && a.id in tracks && SlotOf(Tb(), a.id) == NewSlot(a.call)
      ensures Slots(Tb()) == Slots(old(Tb()))[a.id := NewSlot(a.call)]
    {
      ghost var t := Tb();
      tracks := tracks[a.id := Track(a.call, 0, [], 0, 0)];
      AddedSlot(t, Tb(), a);
    }

    /** One turn of the loops of recover and _fireCallbacksPrematurely. */
    method Dismiss(u: Id, givingUp: bool)
      requires Ok(Tb()) && u in resolutions
      modifies `timers, `timeouts, `resolutions, `tracks, `giveups
      ensures Ok(Tb()) && tracks.Keys == old(tracks).Keys
      ensures var b := old(St()); St() == Change(b, u, Dismissed(b.slots[u].(giveup := b.slots[u].giveup || givingUp)))
    {
      ghost var t, s := Tb(), SlotOf(Tb(), u);
      DropCall(u, givingUp);
      ChangedSlot(t, Tb(), u, Dismissed(s.(giveup := s.giveup || givingUp)));
    }

    method DropCall(u: Id, givingUp: bool)
      requires Ok(Tb()) && u in tracks
      modifies `timers, `timeouts, `resolutions, `tracks, `giveups
      ensures var s := SlotOf(old(Tb()), u);
        Becomes(old(Tb()), Tb(), u, Dismissed(s.(giveup := s.giveup || givingUp)))
    {
      ghost var t, s := Tb(), SlotOf(Tb(), u);
      MarkGivenUp(u, givingUp);
      ghost var t1, s1 := Tb(), s.(giveup := s.giveup || givingUp);
      FailCall(u);
      BecomesTwice(t, t1, Tb(), u, s1, Dismissed(s1));
    }

    method MarkGivenUp(u: Id, givingUp: bool)
      requires Ok(Tb()) && u in tracks
      modifies `giveups
      ensures var s := SlotOf(old(Tb()), u); Becomes(old(Tb()), Tb(), u, s.(giveup := s.giveup || givingUp))
    {
      if givingUp {
        giveups := giveups + {u};
      }
    }

    method FailCall(u: Id)
      requires Ok(Tb()) && u in tracks
      modifies `timers, `timeouts, `resolutions, `tracks
      ensures Becomes(old(Tb()), Tb(), u, Dismissed(SlotOf(old(Tb()), u)))
    {
      TakeOff(u);
      FireLockCallbackWithError(u, true, Unknown);
    }

    method DismissThenAsk(u: Id, asks: map<Id, Ask>, givingUp: bool)
      requires Ok(Tb()) && u in resolutions && (u in asks ==> asks[u].id !in tracks)
      modifies `timers, `timeouts, `resolutions, `tracks, `giveups
      ensures Ok(Tb())
      ensures var b := old(St());
        var b1 := Change(b, u, Dismissed(b.slots[u].(giveup := b.slots[u].giveup || givingUp)));
        St() == if u in asks then Lock(b1, asks[u]) else b1
    {
      Dismiss(u, givingUp);
      if u in asks {
        LockCall(asks[u]);
      }
    }

    method TakeOff(u: Id)
      requires Ok(Tb()) && u in tracks
      modifies `timers, `resolutions
      ensures Becomes(old(Tb()), Tb(), u, SlotOf(old(Tb()), u).(timer := false, resolution := false))
    {
      timers := timers - {u};
      resolutions := resolutions - {u};
    }

    /** The loop itself, over a snapshot of the resolutions; `asks` are the calls that callbacks make. */
    method DismissLive(order: seq<Id>, asks: map<Id, Ask>, givingUp: bool)
      requires Ok(Tb()) && Snapshot(St(), order) && Fresh(St(), order, asks) && Valid(St())
      modifies `timers, `timeouts, `resolutions, `tracks, `giveups
      ensures Ok(Tb()) && St() == DismissAll(old(St()), order, asks, givingUp)
    {
      assert order[0..] == order;
      ghost var b := St();
      for i := 0 to |order|
        invariant Ok(Tb()) && LoopState(St(), order[i..], asks)
        invariant DismissAll(St(), order[i..], asks, givingUp) == DismissAll(b, order, asks, givingUp)
      {
        ghost var before := St();
        LoopHead(before, order, i, asks);
        assert before.slots.Keys == tracks.Keys;
        DismissThenAsk(order[i], asks, givingUp);
        LoopTurn(before, St(), order, i, asks, givingUp);
      }
    }

    /** The entries of the Map, in whichever order. */
    method Entries() returns (order: seq<Id>)
      requires Ok(Tb())
      ensures Snapshot(St(), order)
    {
      order := [];
      var pending := resolutions;
      while pending != {}
        invariant pending <= resolutions
        invariant forall i, j :: 0 <= i < j < |order| ==> order[i] != order[j]
        invariant forall u :: u in order <==> u in resolutions && u !in pending
        decreases |pending|
      {
        var u :| u in pending;
        pending, order := pending - {u}, order + [u];
      }
    }

    // ----- What happens to the client -----

    method OnConnected()
      requires Ok(Tb())
      modifies `isOpen
      ensures Ok(Tb()) && St() == Step(old(St()), ConnectedEvent)
    {
      isOpen := true;
    }

    method OnFirstError()
      requires Ok(Tb())
      modifies `noRecover
      ensures Ok(Tb()) && St() == Step(old(St()), FirstErrorEvent)
    {
      noRecover := true;
    }

    method OnTimerEvent(u: Id)
      requires Ok(Tb()) && u in timers
      modifies `timers, `timeouts, `resolutions, `tracks
      ensures Ok(Tb()) && St() == Step(old(St()), TimerEvent(u))
    {
      ghost var t, b := Tb(), St();
      OnTimer(u);
      ChangedSlot(t, Tb(), u, TimerFired(Flags(), SlotOf(t, u)));
      SameSwitches(b, Flags(), b.slots[u]);
    }

    method OnFrame(f: Frame)
      requires Ok(Tb())
      modifies `timers, `timeouts, `resolutions, `tracks, `giveups
      ensures Ok(Tb()) && St() == Step(old(St()), FrameEvent(f))
    {
      ghost var t := Tb();
      OnData(f);
      if f.id in t.tracks { ChangedSlot(t, Tb(), f.id, FrameArrived(Flags(), SlotOf(t, f.id), f)); }
    }

    /** The entries of the Map are gone through, and nothing else has changed meanwhile. */
    method DismissEntries(asks: map<Id, Ask>, givingUp: bool) returns (ghost order: seq<Id>)
      requires Ok(Tb()) && Valid(St()) && FreshAsks(St(), asks)
      modifies `timers, `timeouts, `resolutions, `tracks, `giveups
      ensures Ok(Tb()) && Snapshot(old(St()), order) && Fresh(old(St()), order, asks)
      ensures St() == DismissAll(old(St()), order, asks, givingUp)
    {
      var entries := Entries();
      order := entries;
      FreshInOrder(St(), entries, asks);
      DismissLive(entries, asks, givingUp);
    }

    /** recover. */
    method Recover(asks: map<Id, Ask>) returns (ghost order: seq<Id>)
      requires Ok(Tb()) && Valid(St()) && FreshAsks(St(), asks)
      modifies this
      ensures Ok(Tb()) && (old(noRecover) ==> St() == old(St()))
      ensures !old(noRecover) ==>
        && Snapshot(old(St()), order) && Fresh(old(St()), order, asks)
        && St() == ClientSpec.Recover(old(St()), order, asks)
    {
      if noRecover {
        order := [];
        return;
      }
      recovering := true;
      order := DismissEntries(asks, true);
      recovering := false;
    }

    /** A version mismatch reported by the broker. */
    method OnVersionMismatch(asks: map<Id, Ask>) returns (ghost order: seq<Id>)
      requires Ok(Tb()) && Valid(St()) && FreshAsks(St(), asks)
      modifies this
      ensures Ok(Tb()) && Snapshot(old(St()), order) && Fresh(old(St()), order, asks)
      ensures St() == VersionMismatch(old(St()), order, asks)
    {
      cannotContinue := true;
      order := DismissEntries(asks, false);
    }

    method EndCurrentConnection(asks: map<Id, Ask>) returns (ghost order: seq<Id>)
      requires Ok(Tb()) && Valid(St()) && FreshAsks(St(), asks)
      modifies this
      ensures Ok(Tb()) && Snapshot(old(St()), order) && Fresh(old(St()), order, asks)
      ensures St() == EndConnection(old(St()), order, asks)
    {
      order := DismissEntries(asks, false);
      isOpen := false;
    }

    method Close(asks: map<Id, Ask>) returns (ghost order: seq<Id>)
      requires Ok(Tb()) && Valid(St()) && FreshAsks(St(), asks)
      modifies this
      ensures Ok(Tb()) && Snapshot(old(St()), order) && Fresh(old(St()), order, asks)
      ensures St() == ClientSpec.Close(old(St()), order, asks)
    {
      ghost var b := St();
      StopRecovering();
      order := DismissEntries(asks, false);
      ghost var b1 := St();
      WipeTables();
      CloseBooks(b, b1, St(), order, asks);
    }

    method StopRecovering()
      requires Ok(Tb())
      modifies `noRecover
      ensures Ok(Tb()) && St() == old(St()).(noRecover := true)
    {
      noRecover := true;
    }

    method WipeTables()
      requires Ok(Tb())
      modifies `timers, `timeouts, `resolutions, `giveups
      ensures Ok(Tb()) && Slots(Tb()) == map u | u in Slots(old(Tb())) :: Wiped(Slots(old(Tb()))[u])
    {
      timers := {};
      timeouts := {};
      resolutions := {};
      giveups := {};
    }
  }

  lemma LockBooks(b: Books, flags: Books, slots1: map<Id, Slot>, slots2: map<Id, Slot>, a: Ask)
    requires flags == b.(slots := flags.slots) && slots1 == b.slots[a.id := NewSlot(a.call)]
    requires slots2 == slots1[a.id := LockInternal(flags, NewSlot(a.call))]
    ensures flags.(slots := slots2) == Lock(b, a)
  {}

  lemma CloseBooks(b: Books, b1: Books, b2: Books, order: seq<Id>, asks: map<Id, Ask>)
    requires Snapshot(b, order)
    requires b1 == DismissAll(b.(noRecover := true), order, asks, false)
    requires b2 == b1.(slots := map u | u in b1.slots :: Wiped(b1.slots[u]))
    ensures b2 == ClientSpec.Close(b, order, asks)
  {}

  /** A timer looks at the switches only. */
  lemma SameSwitches(b: Books, flags: Books, s: Slot)
    requires flags == b.(slots := flags.slots)
    ensures TimerFired(b, s) == TimerFired(flags, s)
  {}

  lemma ChangedSlot(t: Tables, t': Tables, u: Id, s: Slot)
    requires Ok(t) && Becomes(t, t', u, s)
    ensures Slots(t') == Slots(t)[u := s]
  {}

  lemma AddedSlot(t: Tables, t': Tables, a: Ask)
    requires Ok(t) && a.id !in t.tracks
    requires t' == t.(tracks := t.tracks[a.id := Track(a.call, 0, [], 0, 0)])
    ensures Ok(t') && SlotOf(t', a.id) == NewSlot(a.call) && Slots(t') == Slots(t)[a.id := NewSlot(a.call)]
  {}

  /** What the loop relies on: the rest of the snapshot is still live. */
  ghost predicate LoopState(b: Books, rest: seq<Id>, asks: map<Id, Ask>) {
    && Valid(b) && Fresh(b, rest, asks)
    && (forall i, j :: 0 <= i < j < |rest| ==> rest[i] != rest[j])
    && (forall u :: u in rest ==> u in b.slots && b.slots[u].resolution)
  }

  lemma LoopHead(b: Books, order: seq<Id>, i: nat, asks: map<Id, Ask>)
    requires i < |order| && LoopState(b, order[i..], asks)
    ensures order[i] in b.slots && b.slots[order[i]].resolution && (order[i] in asks ==> asks[order[i]].id !in b.slots)
  {
    assert order[i..][0] == order[i] && order[i] in order[i..];
  }

  lemma LoopTurn(b: Books, b2: Books, order: seq<Id>, i: nat, asks: map<Id, Ask>, givingUp: bool)
    requires i < |order| && LoopState(b, order[i..], asks) && order[i] in b.slots
    requires var u := order[i];
      var b1 := Change(b, u, Dismissed(b.slots[u].(giveup := b.slots[u].giveup || givingUp)));
      b2 == if u in asks then Lock(b1, asks[u]) else b1
    ensures LoopState(b2, order[i + 1..], asks)
    ensures DismissAll(b2, order[i + 1..], asks, givingUp) == DismissAll(b, order[i..], asks, givingUp)
  {
    var rest := order[i..];
    assert rest[0] == order[i] && rest[1..] == order[i + 1..];
    LoopHead(b, order, i, asks);
    DismissOne(b, order[i], asks, givingUp, b2);
    RestFresh(b, b2, order[i], rest, asks);
  }
}

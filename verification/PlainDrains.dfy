/** The drain against a simple specification: when everybody in the queue waits for this one key on
    a writable socket, the first so many get it, in order, and nothing else happens. */
module PlainDrains {
  import opened BrokerTypes
  import opened BrokerSpec
  import opened BrokerSteps
  import Fencing

  /** How many waiters of `k` there is room for. */
  function Room(t: Table, k: Key): nat {
    var free := MaxOf(t, k) - |Holders(t, k)|;
    if free <= 0 then 0 else if free <= |Queue(t, k)| then free else |Queue(t, k)|
  }

  /** Single-key waiters on writable sockets, none of which holds the key or waits twice. */
  ghost predicate Plain(t: Table, k: Key, live: set<Ws>) {
    && (forall i :: 0 <= i < |Queue(t, k)| ==>
          var w := Queue(t, k)[i]; w.composite.None? && w.ws in live && w.uuid !in Holders(t, k))
    && (forall i, j :: 0 <= i < j < |Queue(t, k)| ==> Queue(t, k)[i].uuid != Queue(t, k)[j].uuid)
  }

  /** What the `i`-th of the queue's waiters gets. */
  function GrantOf(t: Table, k: Key, i: nat, env: Env): Holder
    requires i < |Queue(t, k)|
  {
    var w := Queue(t, k)[i];
    Holder(w.ws, TokenOf(t, k) + 1 + i, None, Deadline(env, w.uuid, w.ttl))
  }

  function FrameOf(t: Table, k: Key, i: nat): Frame
    requires i < |Queue(t, k)|
  {
    var w := Queue(t, k)[i];
    LockFrame(w.ws, w.uuid, k, |Queue(t, k)| - 1 - i, true, Some(TokenOf(t, k) + 1 + i))
  }

  function Frames(t: Table, k: Key, n: nat): seq<Frame>
    requires n <= |Queue(t, k)|
  {
    seq(n, i requires 0 <= i < n => FrameOf(t, k, i))
  }

  function Mints(t: Table, k: Key, n: nat): seq<Mint> {
    seq(n, i => Mint(k, TokenOf(t, k) + 1 + i))
  }

  /** The first `n` waiters of `k` hold it, besides the holders it had, and nobody else. */
  ghost predicate AddsFirst(t: Table, t': Table, k: Key, n: nat, env: Env)
    requires n <= |Queue(t, k)|
  {
    && (forall i :: 0 <= i < n ==>
         Queue(t, k)[i].uuid in Holders(t', k) && Holders(t', k)[Queue(t, k)[i].uuid] == GrantOf(t, k, i, env))
    && (forall u :: u in Holders(t, k) ==> u in Holders(t', k) && Holders(t', k)[u] == Holders(t, k)[u])
    && (forall u :: u in Holders(t', k) && u !in Holders(t, k) ==> exists i :: 0 <= i < n && Queue(t, k)[i].uuid == u)
  }

  /** Nothing else changed: of key `k` only holders, queue and counter; elsewhere nothing. */
  ghost predicate Elsewhere(s: State, s': State, k: Key) {
    && s'.t.locks.Keys == s.t.locks.Keys && (forall x :: x in s.t.locks && x != k ==> s'.t.locks[x] == s.t.locks[x])
    && (k in s.t.locks ==>
          var (o, o') := (s.t.locks[k], s'.t.locks[k]);
          o' == o.(holders := o'.holders, notify := o'.notify, nextToken := o'.nextToken))
    && s'.composites == s.composites && s'.wsUuids == s.wsUuids && s'.t.minted == s.t.minted
    && s'.closed == s.closed && s'.lockCounts == s.lockCounts && s'.lockExpiresAfter == s.lockExpiresAfter
  }

  /** The counter and the watermark have gone up to the last of `n` tokens. */
  ghost predicate CountsTo(t: Table, t': Table, k: Key, n: nat) {
    && TokenOf(t', k) == TokenOf(t, k) + n
    && t'.fence == if n == 0 then t.fence else Raised(t.fence, TokenOf(t, k) + n)
  }

  /** The first `n` waiters have the rows their times call for, and the other rows stand. */
  ghost predicate Rows(t: Table, t': Table, k: Key, n: nat, env: Env)
    requires n <= |Queue(t, k)|
  {
    && (forall i :: 0 <= i < n ==> var w := Queue(t, k)[i];
          if w.ttl.Finite? then w.uuid in t'.deadlines && t'.deadlines[w.uuid] == Row(k, env.clock(w.uuid) + w.ttl.n)
          else SameRow(t, t', w.uuid))
    && (forall u :: (forall i :: 0 <= i < n ==> Queue(t, k)[i].uuid != u) ==> SameRow(t, t', u))
  }

  ghost predicate SameRow(t: Table, t': Table, u: Uuid) {
    (u in t'.deadlines <==> u in t.deadlines) && (u in t.deadlines ==> t'.deadlines[u] == t.deadlines[u])
  }

  ghost predicate Reports(s: State, s': State, k: Key, n: nat)
    requires n <= |Queue(s.t, k)|
  {
    s'.out == s.out + Frames(s.t, k, n) && Log(s'.t) == Log(s.t) + Mints(s.t, k, n)
  }

  /** `s'` is `s` with the first `n` waiters of `k` granted, in order. */
  ghost predicate GrantsFirst(s: State, s': State, k: Key, n: nat, env: Env) {
    && n <= |Queue(s.t, k)|
    && Queue(s'.t, k) == Queue(s.t, k)[n..] && MaxOf(s'.t, k) == MaxOf(s.t, k)
    && AddsFirst(s.t, s'.t, k, n, env)
    && Elsewhere(s, s', k) && Reports(s, s', k, n)
    && CountsTo(s.t, s'.t, k, n) && Rows(s.t, s'.t, k, n, env)
  }

  lemma GrantedRow(t: Table, k: Key, w: Waiter, env: Env)
    requires Queue(t, k) != [] && Queue(t, k)[0] == w
    ensures var t' := Grant(SetQueue(t, k, Queue(t, k)[1..]), k, w.uuid, w.ws, w.ttl, None, env);
      Rows(t, t', k, 1, env) && CountsTo(t, t', k, 1) && Log(t') == Log(t) + Mints(t, k, 1)
  {
    var t1 := SetQueue(t, k, Queue(t, k)[1..]);
    var t' := Grant(t1, k, w.uuid, w.ws, w.ttl, None, env);
    Fencing.GrantTakes(t1, k, w.uuid, w.ws, w.ttl, None, env);
    Fencing.TakesNotes(t1, t', k, w.uuid);
    assert Mints(t, k, 1) == [Mint(k, TokenOf(t, k) + 1)];
    forall u | forall i :: 0 <= i < 1 ==> Queue(t, k)[i].uuid != u ensures SameRow(t, t', u) {
      assert Queue(t, k)[0].uuid != u;
    }
  }

  lemma ServePlain(s: State, k: Key, env: Env)
    requires Queue(s.t, k) != [] && !Full(s.t, k) && Plain(s.t, k, env.live)
    ensures var s1 := ServeNext(s, k, env);
      && GrantsFirst(s, s1, k, 1, env) && Plain(s1.t, k, env.live)
      && |Holders(s1.t, k)| == |Holders(s.t, k)| + 1
  {
    var s1, q := ServeNext(s, k, env), Queue(s.t, k);
    assert q[0].composite.None? && q[0].ws in env.live;
    assert NextWaiter(q, env.live) == (q[0], q[1..]);
    assert s1 == GrantQueued(s.(t := SetQueue(s.t, k, q[1..])), k, q[0], env);
    GrantedRow(s.t, k, q[0], env);
    FirstAdded(s, k, env, s1);
    PlainStill(s.t, s1.t, k, env);
  }

  /** The first waiter is granted. */
  lemma FirstAdded(s: State, k: Key, env: Env, s1: State)
    requires Queue(s.t, k) != [] && Queue(s.t, k)[0].ws in env.live
    requires s1 == GrantQueued(s.(t := SetQueue(s.t, k, Queue(s.t, k)[1..])), k, Queue(s.t, k)[0], env)
    requires Log(s1.t) == Log(s.t) + Mints(s.t, k, 1) && Queue(s.t, k)[0].uuid !in Holders(s.t, k)
    ensures Queue(s1.t, k) == Queue(s.t, k)[1..] && MaxOf(s1.t, k) == MaxOf(s.t, k)
    ensures AddsFirst(s.t, s1.t, k, 1, env) && Elsewhere(s, s1, k) && Reports(s, s1, k, 1)
    ensures Holders(s1.t, k) == Holders(s.t, k)[Queue(s.t, k)[0].uuid := GrantOf(s.t, k, 0, env)]
  {
    assert Frames(s.t, k, 1) == [FrameOf(s.t, k, 0)];
  }

  lemma PlainStill(t: Table, t1: Table, k: Key, env: Env)
    requires Queue(t, k) != [] && Plain(t, k, env.live) && Queue(t1, k) == Queue(t, k)[1..]
    requires Holders(t1, k) == Holders(t, k)[Queue(t, k)[0].uuid := GrantOf(t, k, 0, env)]
    ensures Plain(t1, k, env.live) && |Holders(t1, k)| == |Holders(t, k)| + 1
  {
    var q := Queue(t, k);
    assert forall i :: 0 <= i < |q| - 1 ==> q[1..][i] == q[i + 1];
    assert Holders(t1, k).Keys == Holders(t, k).Keys + {q[0].uuid};
    assert |Holders(t1, k)| == |Holders(t1, k).Keys| && |Holders(t, k)| == |Holders(t, k).Keys|;
  }

  lemma AddsOneMore(t: Table, t1: Table, t2: Table, k: Key, n: nat, env: Env)
    requires Queue(t, k) != [] && Queue(t1, k) == Queue(t, k)[1..]
    requires n < |Queue(t, k)| && TokenOf(t1, k) == TokenOf(t, k) + 1
    requires forall i, j :: 0 <= i < j < |Queue(t, k)| ==> Queue(t, k)[i].uuid != Queue(t, k)[j].uuid
    requires AddsFirst(t, t1, k, 1, env) && AddsFirst(t1, t2, k, n, env)
    ensures AddsFirst(t, t2, k, n + 1, env)
  {
    var q, h2 := Queue(t, k), Holders(t2, k);
    assert q[0].uuid in Holders(t1, k);
    forall i | 0 <= i < n + 1 ensures q[i].uuid in h2 && h2[q[i].uuid] == GrantOf(t, k, i, env) {
      if i > 0 { assert Queue(t1, k)[i - 1] == q[i] && GrantOf(t1, k, i - 1, env) == GrantOf(t, k, i, env); }
    }
    forall u | u in h2 && u !in Holders(t, k) ensures exists i :: 0 <= i < n + 1 && q[i].uuid == u {
      if u !in Holders(t1, k) {
        var i :| 0 <= i < n && Queue(t1, k)[i].uuid == u;
        assert q[i + 1].uuid == u;
      }
    }
  }

  lemma FramesCons(t: Table, t1: Table, k: Key, n: nat)
    requires Queue(t, k) != [] && Queue(t1, k) == Queue(t, k)[1..]
    requires n < |Queue(t, k)| && TokenOf(t1, k) == TokenOf(t, k) + 1
    ensures Frames(t, k, 1) + Frames(t1, k, n) == Frames(t, k, n + 1)
    ensures Mints(t, k, 1) + Mints(t1, k, n) == Mints(t, k, n + 1)
  {
    forall i | 0 <= i < n ensures FrameOf(t1, k, i) == FrameOf(t, k, i + 1) {
      assert Queue(t1, k)[i] == Queue(t, k)[i + 1];
    }
  }

  lemma ReportsOneMore(s: State, s1: State, s2: State, k: Key, n: nat)
    requires Queue(s.t, k) != [] && Queue(s1.t, k) == Queue(s.t, k)[1..]
    requires n < |Queue(s.t, k)| && TokenOf(s1.t, k) == TokenOf(s.t, k) + 1
    requires Reports(s, s1, k, 1) && Reports(s1, s2, k, n)
    ensures Reports(s, s2, k, n + 1)
  {
    FramesCons(s.t, s1.t, k, n);
  }

  lemma RowsOneMore(t: Table, t1: Table, t2: Table, k: Key, n: nat, env: Env)
    requires Queue(t, k) != [] && Queue(t1, k) == Queue(t, k)[1..] && n < |Queue(t, k)|
    requires forall i, j :: 0 <= i < j < |Queue(t, k)| ==> Queue(t, k)[i].uuid != Queue(t, k)[j].uuid
    requires Rows(t, t1, k, 1, env) && Rows(t1, t2, k, n, env)
    ensures Rows(t, t2, k, n + 1, env)
  {
    var q, q1 := Queue(t, k), Queue(t1, k);
    assert forall i :: 0 <= i < |q1| ==> q1[i] == q[i + 1];
    assert SameRow(t1, t2, q[0].uuid);
    forall i | 0 < i < n + 1
      ensures var w := q[i];
        if w.ttl.Finite? then w.uuid in t2.deadlines && t2.deadlines[w.uuid] == Row(k, env.clock(w.uuid) + w.ttl.n)
        else SameRow(t, t2, w.uuid)
    {
      assert q1[i - 1] == q[i] && q[0].uuid != q[i].uuid;
      assert SameRow(t, t1, q[i].uuid);
    }
    forall u | forall i :: 0 <= i < n + 1 ==> q[i].uuid != u ensures SameRow(t, t2, u) {
      assert q[0].uuid != u && forall i :: 0 <= i < n ==> q1[i].uuid != u;
      assert SameRow(t, t1, u) && SameRow(t1, t2, u);
    }
  }

  lemma CountsOneMore(t: Table, t1: Table, t2: Table, k: Key, n: nat)
    requires CountsTo(t, t1, k, 1) && CountsTo(t1, t2, k, n)
    ensures CountsTo(t, t2, k, n + 1)
  {}

  lemma ElsewhereTransitive(s: State, s1: State, s2: State, k: Key)
    requires Elsewhere(s, s1, k) && Elsewhere(s1, s2, k)
    ensures Elsewhere(s, s2, k)
  {}

  /** First one, then `n` more, are the first `n + 1`. */
  lemma GrantsOneMore(s: State, s1: State, s2: State, k: Key, n: nat, m: nat, env: Env)
    requires Queue(s.t, k) != [] && Plain(s.t, k, env.live) && m == n + 1
    requires GrantsFirst(s, s1, k, 1, env) && GrantsFirst(s1, s2, k, n, env)
    ensures GrantsFirst(s, s2, k, m, env)
  {
    AddsOneMore(s.t, s1.t, s2.t, k, n, env);
    ReportsOneMore(s, s1, s2, k, n);
    RowsOneMore(s.t, s1.t, s2.t, k, n, env);
    CountsOneMore(s.t, s1.t, s2.t, k, n);
    ElsewhereTransitive(s, s1, s2, k);
  }

  lemma GrantsNone(s: State, k: Key, env: Env)
    ensures GrantsFirst(s, s, k, 0, env)
  {
    assert Frames(s.t, k, 0) == [] && Mints(s.t, k, 0) == [];
  }

  lemma RoomLess(t: Table, t1: Table, k: Key)
    requires Queue(t, k) != [] && !Full(t, k) && |Queue(t1, k)| + 1 == |Queue(t, k)|
    requires MaxOf(t1, k) == MaxOf(t, k) && |Holders(t1, k)| == |Holders(t, k)| + 1
    ensures Room(t1, k) + 1 == Room(t, k)
  {}

  lemma ServeTakesRoom(s: State, k: Key, env: Env)
    requires Queue(s.t, k) != [] && !Full(s.t, k) && Plain(s.t, k, env.live)
    ensures Room(ServeNext(s, k, env).t, k) + 1 == Room(s.t, k)
  {
    ServePlain(s, k, env);
    RoomLess(s.t, ServeNext(s, k, env).t, k);
  }

  /** The drain grants exactly as many waiters as there is room for, the first ones, in order. */
  lemma {:induction false} DrainGrantsFirst(s: State, k: Key, env: Env)
    requires Plain(s.t, k, env.live)
    ensures GrantsFirst(s, Drain(s, k, env), k, Room(s.t, k), env)
    decreases |Queue(s.t, k)|
  {
    if Queue(s.t, k) == [] || Full(s.t, k) {
      GrantsNone(s, k, env);
    } else {
      var s1 := ServeNext(s, k, env);
      ServePlain(s, k, env);
      ServeTakesRoom(s, k, env);
      DrainGrantsFirst(s1, k, env);
      GrantsOneMore(s, s1, Drain(s, k, env), k, Room(s1.t, k), Room(s.t, k), env);
    }
  }
}

/** One atomic step of the broker, whichever event causes it, and whole runs. */
module Events {
  import opened BrokerTypes
  import opened BrokerSteps

  datatype Event =
    | LockEvent(ws: Ws, lock: LockReq)
    | UnlockEvent(from: Option<Ws>, unlock: UnlockReq)
    | AcquireEvent(ws: Ws, many: ManyReq)
    | ReleaseEvent(ws: Ws, release: ReleaseReq)
    | TickEvent(now: int, expired: seq<(Uuid, Key)>)
    | CloseEvent(ws: Ws, visits: Visits)
    | GiveUpEvent(ws: Ws, key: Key, uuid: Uuid)

  /** Frames from a socket already cleaned up are dropped. */
  predicate Dropped(s: State, e: Event) {
    match e
    case LockEvent(ws, _) => ws in s.closed
    case UnlockEvent(from, _) => from.Some? && from.value in s.closed
    case AcquireEvent(ws, _) => ws in s.closed
    case ReleaseEvent(ws, _) => ws in s.closed
    case TickEvent(_, _) => false
    case CloseEvent(ws, _) => ws in s.closed
    case GiveUpEvent(ws, _, _) => ws in s.closed
  }

  function Step(s: State, e: Event, env: Env): State {
    if Dropped(s, e) then s
    else
      match e
      case LockEvent(ws, req) => Lock(s, ws, req, env)
      case UnlockEvent(from, req) => Unlock(s, from, req, env)
      case AcquireEvent(ws, req) => AcquireMany(s, ws, req, env)
      case ReleaseEvent(ws, req) => ReleaseMany(s, ws, req, env)
      case TickEvent(_, expired) => Sweep(s, expired, env)
      case CloseEvent(ws, visits) => Disconnect(s, ws, visits, env)
      case GiveUpEvent(_, k, u) => GiveUp(s, k, u)
  }

  datatype Input = Input(event: Event, env: Env)

  /** The state after a run of inputs. */
  function Run(s: State, ins: seq<Input>): State
    decreases |ins|
  {
    if ins == [] then s else Run(Step(s, ins[0].event, ins[0].env), ins[1..])
  }

  /** The journal opens with what the durable cell holds, when there is one. */
  function Start(fence: Fence, lockExpiresAfter: Pos): State {
    var journal := if fence.durable.Some? then [Wrote(fence.durable.value)] else [];
    State(Table(map[], map[], 0, fence, journal), map[], [], [], map[], {}, 0, lockExpiresAfter)
  }
}

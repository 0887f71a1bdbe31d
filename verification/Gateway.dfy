/** Submitting an action to a table: recovery, the engine, settlement, and the durable commit. */
module Gateway {
  import opened BettingInvariant
  import opened DurableLog
  import opened Invariants
  import opened Pots
  import opened Recovery
  import opened Reducer
  import opened Sequences
  import opened Showdown
  import opened Table
  import opened Wrappers

  // ---- Settling a completed hand ----

  function StackMap(ps: seq<Player>): map<PlayerId, int> {
    if |ps| == 0 then map[] else StackMap(ps[..|ps| - 1])[ps[|ps| - 1].id := ps[|ps| - 1].stack]
  }

  /** What each player won, winners only. */
  function Awards(before: map<PlayerId, int>, ps: seq<Player>): map<PlayerId, int> {
    if |ps| == 0 then map[]
    else
      var awards := Awards(before, ps[..|ps| - 1]);
      var p := ps[|ps| - 1];
      var won := p.stack - (if p.id in before then before[p.id] else 0);
      if won > 0 then awards[p.id := won] else awards
  }

  datatype Finalized = Finalized(state: State, events: seq<GameEvent>)

  datatype FinalizeError = NotSettled(error: SettleError) | Violated(violation: Violation)

  function Moves(events: seq<Event>): (r: seq<GameEvent>)
    ensures |r| == |events|
    ensures forall i | 0 <= i < |r| :: r[i] == Move(events[i])
  {
    seq(|events|, i requires 0 <= i < |events| => Move(events[i]))
  }

  /** A completed hand is settled at once, and the settlement joins the events of the action. */
  function Finalize(s: State, events: seq<Event>): Result<Finalized, FinalizeError>
    requires forall i | 0 <= i < |s.players| :: s.players[i].seat >= 0
  {
    if s.phase != Complete then Ok(Finalized(s, Moves(events)))
    else
      match Settle(s)
      case Err(e) => Err(NotSettled(e))
      case Ok(settled) =>
        if AssertInvariants(settled).Some? then Err(Violated(AssertInvariants(settled).value))
        else
          var award := HandSettled(Sum(s.players, HandOf), Awards(StackMap(s.players), settled.players),
                                   StackMap(settled.players));
          Ok(Finalized(settled, Moves(events) + [award]))
  }

  // ---- Requests ----

  datatype Request = Request(
    actionId: ActionId,
    roomId: RoomId,
    handId: HandId,
    userId: PlayerId,
    payloadHash: PayloadHash,
    expectedVersion: int,
    action: Action)

  datatype Refused =
    | IdConflict
    | Draining
    | HandNotFound
    | Stale(version: int)
    | ByEngine(code: ErrorCode)
    | NotFinalized(error: FinalizeError)
    | CommitFailed(result: CommitResult)

  datatype Reply = Success(ack: Ack) | Failure(why: Refused)

  lemma PassesPlayable(s: State)
    requires AssertInvariants(s).None?
    ensures Playable(s)
  {
  }

  function StacksOf(ps: seq<Player>): seq<SeatStack> {
    seq(|ps|, i requires 0 <= i < |ps| => SeatStack(ps[i].id, ps[i].stack))
  }

  function CommitOf(q: Request, f: Finalized, deadline: Deadline, automatic: bool): CommitInput {
    CommitInput(q.roomId, q.handId, q.actionId, q.userId, q.payloadHash, q.expectedVersion, f.events, f.state,
                Ack(q.actionId, f.state.version, f.events, automatic), StacksOf(f.state.players), f.state.version,
                if f.state.phase == Complete then None else Some(deadline))
  }

  predicate Repeats(o: Operation, q: Request) {
    && o.kind == PlayerAction
    && o.roomId == q.roomId
    && o.handId == q.handId
    && o.userId == q.userId
    && o.payloadHash == q.payloadHash
  }

  /** What the engine makes of the request, settled if it ends the hand. */
  function Decide(s: State, q: Request): Result<Finalized, Refused>
    requires Playable(s)
  {
    match Apply(s, Command(q.userId, Some(q.expectedVersion), q.action))
    case Rejected(code, _) => Err(ByEngine(code))
    case Accepted(t) =>
      ApplyKeepsSeats(s, Command(q.userId, Some(q.expectedVersion), q.action));
      match Finalize(t.state, t.events)
      case Err(e) => Err(NotFinalized(e))
      case Ok(f) => Ok(f)
  }

  lemma ActionKeepsSeats(s: State, i: nat, action: Action)
    requires Playable(s) && i < |s.players|
    ensures Playable(AfterAction(s, i, action))
  {
  }

  lemma FinishKeepsSeats(s: State, seat: nat, events: seq<Event>)
    requires Playable(s)
    ensures Playable(FinishOrPass(s, seat, events).state)
  {
  }

  lemma ApplyKeepsSeats(s: State, c: Command)
    requires Playable(s)
    ensures Apply(s, c).Accepted? ==> Playable(Apply(s, c).transition.state)
  {
    if Refusal(s, c).None? {
      var i := SeatOf(s.players, c.playerId);
      ActionKeepsSeats(s, i, c.action);
      FinishKeepsSeats(AfterAction(s, i, c.action), s.players[i].seat, [EventOf(s, i, c.action)]);
    }
  }

  // ---- A player's action ----

  /** What an operation already on record answers. */
  function Lookup(db: Db, q: Request): Option<Reply> {
    if q.actionId !in db.operations then None
    else
      var o := db.operations[q.actionId];
      Some(if Repeats(o, q) then Success(o.ack) else Failure(IdConflict))
  }

  /** The commit a player's request leads to in this state, or why it is refused. */
  function PlayerMove(s: State, q: Request, deadline: Deadline): Result<CommitInput, Refused>
    requires Playable(s)
  {
    if s.handId != q.handId then Err(HandNotFound)
    else if q.expectedVersion != s.version then Err(Stale(s.version))
    else
      match Decide(s, q)
      case Err(e) => Err(e)
      case Ok(f) => Ok(CommitOf(q, f, deadline, false))
  }

  /** A player's action moves the runtime only if this very commit took effect. */
  predicate MoveTaken(result: CommitResult) { result.Acked? && result.committed }

  function MoveReply(result: CommitResult): Reply {
    if result.Acked? then Success(result.operation.ack)
    else if result.ActionIdConflict? then Failure(IdConflict)
    else Failure(CommitFailed(result))
  }

  // ---- Timeouts ----

  datatype Expected = Expected(handId: HandId, version: int, actorId: PlayerId, deadline: Deadline)

  predicate Matches(r: Runtime, e: Expected) {
    && r.state.handId == e.handId
    && r.state.version == e.version
    && r.state.actorId == e.actorId
    && r.deadline == Some(e.deadline)
  }

  function TimeoutHash(action: Action, userId: PlayerId): PayloadHash {
    (if action.Check? then "check:" else "fold:") + userId
  }

  /** The request the server makes in the actor's name: check if that is legal, fold otherwise. */
  function TimeoutRequest(room: RoomId, s: State): Request {
    var action := if MayCheck in LegalActions(s, s.actorId) then Check else Fold;
    Request(ServerTimeout(s.handId, s.version), room, s.handId, s.actorId, TimeoutHash(action, s.actorId), s.version,
            action)
  }

  /** The request to make, if the awaited decision is still the one due. */
  function Awaited(r: Runtime, room: RoomId, user: Option<PlayerId>, expected: Option<Expected>): Option<Request> {
    if r.state.phase == Complete || (expected.Some? && !Matches(r, expected.value))
       || (user.Some? && user.value != r.state.actorId)
    then None
    else Some(TimeoutRequest(room, r.state))
  }

  /** The runtime is read again after the wait for the lookup; id, hash, actor and action are those found before. */
  function Reread(q: Request, s: State): Request { q.(handId := s.handId, expectedVersion := s.version) }

  /** An automatic action moves the runtime whenever the commit answers at all. */
  predicate TimeoutTaken(result: CommitResult) { result.Acked? }

  /** The request handlers. Each method runs between two waits of its handler, on a runtime the handler holds. */
  class TableGateway {
    const server: Server

    constructor (server: Server)
      ensures this.server == server
    {
      this.server := server;
    }

    method FindOperation(q: Request) returns (reply: Option<Reply>)
      ensures reply == Lookup(server.db.Contents(), q)
    {
      if q.actionId !in server.db.operations {
        return None;
      }
      var existing := server.db.operations[q.actionId];
      if !Repeats(existing, q) {
        return Some(Failure(IdConflict));
      }
      return Some(Success(existing.ack));
    }

    method DecideMove(runtime: TableRuntime, q: Request, deadline: Deadline) returns (r: Result<CommitInput, Refused>)
      requires Playable(runtime.state)
      ensures r == PlayerMove(runtime.state, q, deadline)
    {
      if runtime.state.handId != q.handId {
        return Err(HandNotFound);
      }
      if q.expectedVersion != runtime.state.version {
        return Err(Stale(runtime.state.version));
      }
      var decided := Decide(runtime.state, q);
      if decided.Err? {
        return Err(decided.error);
      }
      return Ok(CommitOf(q, decided.value, deadline, false));
    }

    /** After the commit of a player's action. */
    method KeepMove(runtime: TableRuntime, c: CommitInput, result: CommitResult) returns (reply: Reply)
      modifies runtime
      ensures reply == MoveReply(result)
      ensures runtime.Value() == if MoveTaken(result) then Runtime(c.state, c.deadline) else old(runtime.Value())
    {
      if result.ActionIdConflict? {
        return Failure(IdConflict);
      }
      if !result.Acked? {
        return Failure(CommitFailed(result));
      }
      if result.committed {
        runtime.state := c.state;
        runtime.deadline := c.deadline;
      }
      return Success(result.operation.ack);
    }

    method AwaitTimeout(runtime: TableRuntime, room: RoomId, user: Option<PlayerId>, expected: Option<Expected>)
      returns (q: Option<Request>)
      ensures q == Awaited(runtime.Value(), room, user, expected)
    {
      if runtime.state.phase == Complete {
        return None;
      }
      if expected.Some? && !Matches(runtime.Value(), expected.value) {
        return None;
      }
      if user.Some? && user.value != runtime.state.actorId {
        return None;
      }
      return Some(TimeoutRequest(room, runtime.state));
    }

    /** After the commit of an automatic action: whatever it answered, the runtime is set; if it threw, it is not. */
    method KeepTimeout(runtime: TableRuntime, c: CommitInput, result: CommitResult) returns (thrown: bool)
      modifies runtime
      ensures thrown == !TimeoutTaken(result)
      ensures runtime.Value() == if TimeoutTaken(result) then Runtime(c.state, c.deadline) else old(runtime.Value())
    {
      if !result.Acked? {
        return true;
      }
      runtime.state := c.state;
      runtime.deadline := c.deadline;
      return false;
    }
  }
}

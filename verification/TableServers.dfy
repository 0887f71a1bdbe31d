/** Servers, their memories and their handlers, one step at a time: a step runs from one wait of a handler to its
    next, so between any two queries of a handler other handlers and other servers may have moved. */
module TableServers {
  import opened BettingInvariant
  import opened Board
  import opened DurableLog
  import opened Gateway
  import opened HandLogs
  import opened Recovery
  import opened Reducer
  import opened Sequences
  import opened Table
  import opened Wrappers

  type ServerId = nat

  type HandlerId = nat

  /** The place of a runtime object in a server's memory. */
  type Ref = nat

  /** A server's runtime objects, and the one its store names for each room. */
  datatype Memory = Memory(objects: seq<Runtime>, store: map<RoomId, Ref>)

  /** A snapshot request or the start-up of a server, a player's action, or a timeout. The caller of a guarded timeout
      drains the room when it throws. */
  datatype Job =
    | Peek(room: RoomId, boot: bool)
    | Act(request: Request, deadline: Deadline)
    | Expire(room: RoomId, user: Option<PlayerId>, expected: Option<Expected>, deadline: Deadline, guarded: bool)

  /** What a handler is about to do. */
  datatype Stage =
    | Arrived
    | Queued
    | Admitted
    | Recovering
    | Missed
    | SnapshotRead(snapshot: Snapshot, hand: HandRow)
    | Doomed
    | Threw
    | Holding(ref: Ref)
    | Looking(ref: Ref, request: Request)
    | Checking(ref: Ref, request: Request, decision: Finalized)
    | Committing(ref: Ref, input: CommitInput)
    | Committed(ref: Ref, input: CommitInput, result: CommitResult)
    | Over(reply: Option<Reply>)

  datatype Handler = Handler(server: ServerId, job: Job, stage: Stage)

  datatype System = System(db: Db, servers: map<ServerId, Memory>, handlers: map<HandlerId, Handler>)

  datatype ServerEvent =
    | DealHand(server: ServerId, input: CreateInput)
    | Spawn(id: HandlerId, server: ServerId, job: Job)
    | Proceed(id: HandlerId)
    | Forget(server: ServerId, room: RoomId)
    | Crash(server: ServerId)
    | TakeSeat(room: RoomId, user: PlayerId, stack: int)
    | LeaveSeat(action: ActionId, operation: Operation)

  function RoomOf(job: Job): RoomId { if job.Act? then job.request.roomId else job.room }

  function MemoryOf(sys: System, server: ServerId): Memory {
    if server in sys.servers then sys.servers[server] else Memory([], map[])
  }

  // ---- The room's lock ----

  /** Actions and timeouts do their work under the room's lock; a snapshot request takes no lock. */
  predicate Locked(h: Handler) {
    !h.job.Peek? && !h.stage.Arrived? && !h.stage.Queued? && !h.stage.Threw? && !h.stage.Over?
  }

  predicate LockFree(sys: System, server: ServerId, room: RoomId) {
    forall id | id in sys.handlers ::
      sys.handlers[id].server == server && RoomOf(sys.handlers[id].job) == room ==> !Locked(sys.handlers[id])
  }

  // ---- One step of a handler ----

  datatype Outcome = Outcome(db: Db, memory: Memory, stage: Stage)

  function FirstStage(job: Job): Stage {
    match job
    case Peek(_, boot) => if boot then Recovering else Admitted
    case Act(_, _) => Arrived
    case Expire(_, _, _, _, _) => Queued
  }

  /** Without a runtime a player is told there is no hand; the others end silently. */
  function NoTable(job: Job): Stage { Over(if job.Act? then Some(Failure(HandNotFound)) else None) }

  /** An automatic action that throws leaves the lock, and its caller drains the room if it is a guarded one. */
  function Thrown(job: Job): Stage { if job.Expire? && job.guarded then Threw else Over(None) }

  /** The references of a handler point into its server's memory, at states the reducer can be given. */
  predicate RefOk(m: Memory, stage: Stage) {
    match stage
    case Holding(ref) => ref < |m.objects|
    case Looking(ref, _) => ref < |m.objects|
    case Checking(ref, _, _) => ref < |m.objects|
    case Committing(ref, _) => ref < |m.objects|
    case Committed(ref, _, _) => ref < |m.objects|
    case _ => true
  }

  predicate MemorySound(m: Memory) {
    && (forall i | 0 <= i < |m.objects| :: Playable(m.objects[i].state))
    && (forall room | room in m.store :: m.store[room] < |m.objects|)
  }

  function Set(m: Memory, ref: Ref, r: Runtime): Memory
    requires ref < |m.objects|
  {
    m.(objects := m.objects[ref := r])
  }

  /** A new object, named by the store for the room. */
  function Stored(m: Memory, room: RoomId, r: Runtime): Memory {
    Memory(m.objects + [r], m.store[room := |m.objects|])
  }

  function Next(db: Db, m: Memory, job: Job, stage: Stage): Outcome
    requires MemorySound(m) && RefOk(m, stage)
  {
    match stage
    case Arrived =>
      if !job.Act? then Outcome(db, m, Over(None))
      else
        var found := Lookup(db, job.request);
        Outcome(db, m, if found.Some? then Over(found) else Queued)
    case Queued =>
      if job.Act? then
        var found := Lookup(db, job.request);
        Outcome(db, m, if found.Some? then Over(found) else Admitted)
      else Outcome(db, m, Recovering)
    case Admitted =>
      Outcome(db, m, if RoomOf(job) !in db.draining then Recovering
                     else Over(if job.Act? then Some(Failure(Draining)) else None))
    case Recovering =>
      Outcome(db, m, if RoomOf(job) in m.store then Holding(m.store[RoomOf(job)]) else Missed)
    case Missed =>
      Outcome(db, m, match ReadLatest(db, RoomOf(job))
                     case Nothing => NoTable(job)
                     case Unfit => Doomed
                     case Fit(s, hand) => SnapshotRead(s, hand))
    case SnapshotRead(s, hand) =>
      if HistoryOk(s, EventsOf(db, s.handId))
      then Outcome(db, Stored(m, RoomOf(job), Restored(s, hand)), Holding(|m.objects|))
      else Outcome(db, m, Doomed)
    case Doomed => Outcome(db.(draining := db.draining + {RoomOf(job)}), m, NoTable(job))
    case Threw => Outcome(db.(draining := db.draining + {RoomOf(job)}), m, Over(None))
    case Holding(ref) => Outcome(db, m, Held(m, job, ref))
    case Looking(ref, q) => Outcome(db, m, Looked(db, m, job, ref, q))
    case Checking(ref, q, f) =>
      Outcome(db, m, if RoomOf(job) in db.draining || !job.Expire? then Over(None)
                     else Committing(ref, CommitOf(q, f, job.deadline, true)))
    case Committing(ref, c) =>
      var (after, result) := Commit(db, c);
      Outcome(after, m, Committed(ref, c, result))
    case Committed(ref, c, result) => Settle(db, m, job, ref, c, result)
    case Over(_) => Outcome(db, m, stage)
  }

  /** With the runtime in hand: a player's move is decided, a timeout looks whether it is still awaited. */
  function Held(m: Memory, job: Job, ref: Ref): Stage
    requires MemorySound(m) && ref < |m.objects|
  {
    match job
    case Peek(_, _) => Over(None)
    case Act(q, deadline) =>
      (match PlayerMove(m.objects[ref].state, q, deadline)
       case Err(e) => Over(Some(Failure(e)))
       case Ok(c) => Committing(ref, c))
    case Expire(room, user, expected, _, _) =>
      (match Awaited(m.objects[ref], room, user, expected)
       case None => Over(None)
       case Some(q) => Looking(ref, q))
  }

  /** A timeout already on record ends here, or throws if it was another request; otherwise the engine decides. */
  function Looked(db: Db, m: Memory, job: Job, ref: Ref, q: Request): Stage
    requires MemorySound(m) && ref < |m.objects|
  {
    var found := Lookup(db, q);
    if found.Some? then (if found.value.Success? then Over(None) else Thrown(job))
    else
      var again := Reread(q, m.objects[ref].state);
      match Decide(m.objects[ref].state, again)
      case Err(ByEngine(_)) => Over(None)
      case Err(_) => Thrown(job)
      case Ok(f) => Checking(ref, again, f)
  }

  /** After the commit has answered, the handler sets the runtime it holds. */
  function Settle(db: Db, m: Memory, job: Job, ref: Ref, c: CommitInput, result: CommitResult): Outcome
    requires ref < |m.objects|
  {
    var moved := Set(m, ref, Runtime(c.state, c.deadline));
    if job.Act? then Outcome(db, if MoveTaken(result) then moved else m, Over(Some(MoveReply(result))))
    else if TimeoutTaken(result) then Outcome(db, moved, Over(None))
    else Outcome(db, m, Thrown(job))
  }

  // ---- One step of the system ----

  predicate Sound(sys: System) {
    && (forall server | server in sys.servers :: MemorySound(sys.servers[server]))
    && (forall id | id in sys.handlers :: RefOk(MemoryOf(sys, sys.handlers[id].server), sys.handlers[id].stage))
  }

  /** A hand is dealt live and under the room's lock, with the stacks of its players for their seats; clients cannot use
      the ids of timeouts; a seat is taken by who has none, and left by who has one. */
  ghost predicate Enabled(sys: System, event: ServerEvent) {
    match event
    case DealHand(server, c) =>
      && LockFree(sys, server, c.roomId) && c.seatStacks == StacksOf(c.state.players)
      && exists d :: StartOk(c.roomId, c.handId, c.state, d)
    case Spawn(id, _, job) => id !in sys.handlers && (job.Act? ==> job.request.actionId.Submitted?)
    case Proceed(id) =>
      && id in sys.handlers && !sys.handlers[id].stage.Over?
      && (sys.handlers[id].stage.Queued? ==> LockFree(sys, sys.handlers[id].server, RoomOf(sys.handlers[id].job)))
    case Forget(server, room) => LockFree(sys, server, room)
    case Crash(_) => true
    case TakeSeat(room, user, stack) =>
      room !in sys.db.draining && (room, user) !in sys.db.seats && stack >= 0
    case LeaveSeat(action, operation) =>
      && action !in sys.db.operations && action.Submitted? && operation.kind == LeaveOperation
      && (operation.roomId, operation.userId) in sys.db.seats
  }

  /** A dealt hand takes over the room's runtime object, if the store names one. */
  function Dealt(m: Memory, room: RoomId, r: Runtime): Memory
    requires room in m.store ==> m.store[room] < |m.objects|
  {
    if room in m.store then Set(m, m.store[room], r) else Stored(m, room, r)
  }

  function Advance(sys: System, event: ServerEvent): System
    requires Enabled(sys, event) && Sound(sys)
  {
    match event
    case DealHand(server, c) =>
      var (db, r) := Create(sys.db, c);
      var m := MemoryOf(sys, server);
      System(db,
             if r.Created? then sys.servers[server := Dealt(m, c.roomId, Runtime(c.state, Some(c.deadline)))]
             else sys.servers,
             sys.handlers)
    case Spawn(id, server, job) => sys.(handlers := sys.handlers[id := Handler(server, job, FirstStage(job))])
    case Proceed(id) =>
      var h := sys.handlers[id];
      var o := Next(sys.db, MemoryOf(sys, h.server), h.job, h.stage);
      System(o.db, sys.servers[h.server := o.memory], sys.handlers[id := h.(stage := o.stage)])
    case Forget(server, room) =>
      var m := MemoryOf(sys, server);
      sys.(servers := sys.servers[server := m.(store := m.store - {room})])
    case Crash(server) =>
      System(sys.db, sys.servers[server := Memory([], map[])],
             map id | id in sys.handlers && sys.handlers[id].server != server :: sys.handlers[id])
    case TakeSeat(room, user, stack) => sys.(db := sys.db.(seats := sys.db.seats[(room, user) := stack]))
    case LeaveSeat(action, operation) =>
      sys.(db := sys.db.(operations := sys.db.operations[action := operation],
                         seats := sys.db.seats - {(operation.roomId, operation.userId)}))
  }
}

/** What every step of every server keeps: tables in order, memories that hold only committed states, handlers that
    know what they are doing, and one handler at a time under a room's lock. */
module ServerSteps {
  import opened BettingInvariant
  import opened Board
  import opened DurableLog
  import opened Game
  import opened Gateway
  import opened HandEvents
  import opened HandLogs
  import opened HandRecords
  import opened Recovery
  import opened Reducer
  import opened Sealing
  import opened Sequences
  import opened Table
  import opened TableServers
  import opened Wrappers

  // ---- What memories and handlers know ----

  ghost predicate ObjectKnown(logs: Logs, r: Runtime) { RuntimeKnown(logs, r.state.tableId, r) }

  ghost predicate MemoryKnown(logs: Logs, m: Memory) {
    && (forall i: nat | i < |m.objects| :: ObjectKnown(logs, m.objects[i]))
    && (forall room | room in m.store :: InRoomAt(m, m.store[room], room))
  }

  predicate InRoomAt(m: Memory, ref: Ref, room: RoomId) {
    ref < |m.objects| && m.objects[ref].state.tableId == room
  }

  ghost predicate SnapshotKnown(logs: Logs, room: RoomId, s: Snapshot) {
    && s.roomId == room && s.handId in logs && logs[s.handId].room == room
    && exists k: nat :: SnapshotIs(logs[s.handId], k, s)
  }

  predicate SnapshotIs(log: Log, k: nat, s: Snapshot) {
    k <= |log.entries| && s == Snapshot(log.room, log.hand, StateAt(log, k).version, StateAt(log, k))
  }

  /** The decision was the engine's answer to the request in state k of the log. */
  ghost predicate DecidedIn(log: Log, k: nat, q: Request, f: Finalized) {
    && k <= |log.entries| && StateAt(log, k).version == q.expectedVersion
    && Playable(StateAt(log, k)) && Decide(StateAt(log, k), q) == Ok(f)
  }

  predicate TimeoutIn(log: Log, k: nat, q: Request) {
    k <= |log.entries| && q == TimeoutRequest(log.room, StateAt(log, k))
  }

  ghost predicate SourceKnown(logs: Logs, job: Job, q: Request, f: Finalized, k: nat) {
    && q.roomId == RoomOf(job) && q.handId in logs && logs[q.handId].room == RoomOf(job)
    && DecidedIn(logs[q.handId], k, q, f)
    && (job.Act? ==> q == job.request && q.actionId.Submitted?)
    && (job.Expire? ==> TimeoutIn(logs[q.handId], k, q))
  }

  ghost predicate InputKnown(logs: Logs, job: Job, c: CommitInput) {
    !job.Peek? && exists q, f, k: nat, deadline, automatic ::
      c == CommitOf(q, f, deadline, automatic) && SourceKnown(logs, job, q, f, k)
  }

  /** An answered commit: if the handler will set its runtime, it sets it to a committed state, and a timeout is refused
      only as stale. */
  ghost predicate ResultKnown(logs: Logs, job: Job, c: CommitInput, result: CommitResult) {
    && ((if job.Act? then MoveTaken(result) else TimeoutTaken(result)) ==>
          RuntimeKnown(logs, RoomOf(job), Runtime(c.state, c.deadline)))
    && (job.Expire? && !TimeoutTaken(result) ==> result == StaleSnapshot)
  }

  ghost predicate StageKnown(logs: Logs, m: Memory, job: Job, stage: Stage) {
    match stage
    case SnapshotRead(s, _) => SnapshotKnown(logs, RoomOf(job), s)
    case Holding(ref) => InRoomAt(m, ref, RoomOf(job))
    case Looking(ref, q) =>
      job.Expire? && InRoomAt(m, ref, RoomOf(job)) && q == TimeoutRequest(RoomOf(job), m.objects[ref].state)
    case Checking(ref, q, f) =>
      job.Expire? && InRoomAt(m, ref, RoomOf(job)) && exists k: nat :: SourceKnown(logs, job, q, f, k)
    case Committing(ref, c) => InRoomAt(m, ref, RoomOf(job)) && InputKnown(logs, job, c)
    case Committed(ref, c, result) =>
      InRoomAt(m, ref, RoomOf(job)) && !job.Peek? && ResultKnown(logs, job, c, result)
    case _ => true
  }

  /** A timeout's operation stands for the entry of its hand decided at its version. */
  ghost predicate TimeoutEntry(log: Log, j: nat, id: ActionId, o: Operation)
    requires id.ServerTimeout?
  {
    && j < |log.entries| && StateAt(log, j).version == id.version && Playable(StateAt(log, j))
    && var q := TimeoutRequest(log.room, StateAt(log, j));
    && o.roomId == log.room && o.userId == q.userId && o.payloadHash == q.payloadHash
    && Decide(StateAt(log, j), q).Ok? && Decide(StateAt(log, j), q).value.state == log.entries[j].state
  }

  ghost predicate TimeoutOp(logs: Logs, id: ActionId, o: Operation)
    requires id.ServerTimeout?
  {
    && o.kind == PlayerAction && o.handId == id.handId && id.handId in logs
    && exists j: nat :: TimeoutEntry(logs[id.handId], j, id, o)
  }

  /** An action's operation stands for entry j of its hand. */
  predicate EnteredAt(log: Log, j: nat, id: ActionId, o: Operation) {
    && j < |log.entries| && log.entries[j].actionId == id
    && o.ack.version == log.entries[j].state.version && o.ack.events == log.entries[j].events
  }

  ghost predicate Entered(logs: Logs, id: ActionId, o: Operation) {
    && o.handId in logs && logs[o.handId].room == o.roomId
    && exists j: nat :: EnteredAt(logs[o.handId], j, id, o)
  }

  ghost predicate OpKnown(logs: Logs, id: ActionId, o: Operation) {
    (id.ServerTimeout? ==> TimeoutOp(logs, id, o)) && (o.kind == PlayerAction ==> Entered(logs, id, o))
  }

  ghost predicate OpsKnown(db: Db, logs: Logs) {
    forall id | id in db.operations :: OpKnown(logs, id, db.operations[id])
  }

  ghost predicate TablesOk(db: Db, logs: Logs) {
    DbOk(db, logs) && forall k {:trigger Open(TablesSeal, k)} :: Open(TablesSeal, k) ==> OpsKnown(db, logs)
  }

  ghost predicate MemoryOk(logs: Logs, m: Memory) {
    forall k {:trigger Open(MemorySeal, k)} :: Open(MemorySeal, k) ==> MemoryKnown(logs, m)
  }

  ghost predicate HandlerOk(logs: Logs, m: Memory, h: Handler) {
    (h.job.Act? ==> h.job.request.actionId.Submitted?)
    && forall k {:trigger Open(HandlerSeal, k)} :: Open(HandlerSeal, k) ==> StageKnown(logs, m, h.job, h.stage)
  }

  predicate SameRoom(a: Handler, b: Handler) { a.server == b.server && RoomOf(a.job) == RoomOf(b.job) }

  /** A room's lock is held by one handler of a server at a time. */
  predicate Exclusive(sys: System) {
    forall a, b | a in sys.handlers && b in sys.handlers && a != b && SameRoom(sys.handlers[a], sys.handlers[b]) ::
      !(Locked(sys.handlers[a]) && Locked(sys.handlers[b]))
  }

  ghost predicate SystemOk(sys: System, logs: Logs) {
    && TablesOk(sys.db, logs)
    && (forall server | server in sys.servers :: MemoryOk(logs, sys.servers[server]))
    && (forall id | id in sys.handlers ::
          HandlerOk(logs, MemoryOf(sys, sys.handlers[id].server), sys.handlers[id]))
    && Exclusive(sys)
  }

  lemma EmptyMemoryOk(logs: Logs)
    ensures MemoryOk(logs, Memory([], map[]))
  {
  }

  lemma MemoryIsOk(sys: System, logs: Logs, server: ServerId)
    requires SystemOk(sys, logs)
    ensures MemoryOk(logs, MemoryOf(sys, server))
  {
    EmptyMemoryOk(logs);
  }

  lemma MemoryIsSound(db: Db, logs: Logs, m: Memory)
    requires DbOk(db, logs) && MemoryOk(logs, m)
    ensures MemorySound(m)
  {
    assert Open(MemorySeal, 0);
    forall i: nat | i < |m.objects| ensures Playable(m.objects[i].state) {
      assert ObjectKnown(logs, m.objects[i]);
      KnownPlays(db, logs, m.objects[i].state.tableId, m.objects[i]);
    }
    forall room | room in m.store ensures m.store[room] < |m.objects| {
      assert InRoomAt(m, m.store[room], room);
    }
  }

  /** In a system in order every step is defined. */
  lemma SystemIsSound(sys: System, logs: Logs)
    requires SystemOk(sys, logs)
    ensures Sound(sys)
  {
    forall server | server in sys.servers ensures MemorySound(sys.servers[server]) {
      MemoryIsSound(sys.db, logs, sys.servers[server]);
    }
    forall id | id in sys.handlers
      ensures RefOk(MemoryOf(sys, sys.handlers[id].server), sys.handlers[id].stage)
    {
      assert HandlerOk(logs, MemoryOf(sys, sys.handlers[id].server), sys.handlers[id]);
      assert Open(HandlerSeal, 0);
    }
  }

  // ---- Growth ----

  lemma SnapshotGrows(a: Logs, b: Logs, room: RoomId, s: Snapshot)
    requires Grows(a, b) && SnapshotKnown(a, room, s)
    ensures SnapshotKnown(b, room, s)
  {
    var k: nat :| SnapshotIs(a[s.handId], k, s);
    StateKept(a[s.handId], b[s.handId], k);
    assert SnapshotIs(b[s.handId], k, s);
  }

  lemma SourceGrows(a: Logs, b: Logs, job: Job, q: Request, f: Finalized, k: nat)
    requires Grows(a, b) && SourceKnown(a, job, q, f, k)
    ensures SourceKnown(b, job, q, f, k)
  {
    StateKept(a[q.handId], b[q.handId], k);
  }

  lemma InputGrows(a: Logs, b: Logs, job: Job, c: CommitInput)
    requires Grows(a, b) && InputKnown(a, job, c)
    ensures InputKnown(b, job, c)
  {
    var q, f, k: nat, deadline, automatic :|
      c == CommitOf(q, f, deadline, automatic) && SourceKnown(a, job, q, f, k);
    SourceGrows(a, b, job, q, f, k);
  }

  lemma MemoryGrows(a: Logs, b: Logs, m: Memory)
    requires Grows(a, b) && MemoryOk(a, m)
    ensures MemoryOk(b, m)
  {
    assert Open(MemorySeal, 0);
    forall i: nat | i < |m.objects| ensures ObjectKnown(b, m.objects[i]) {
      assert ObjectKnown(a, m.objects[i]);
      RuntimeGrows(a, b, m.objects[i].state.tableId, m.objects[i]);
    }
  }

  /** Objects stay in their rooms, and those a set of places names stay as they are. */
  predicate ObjectsStay(m: Memory, after: Memory) {
    |m.objects| <= |after.objects|
    && forall i: nat | i < |m.objects| :: StaysAt(m, after, i)
  }

  predicate StaysAt(m: Memory, after: Memory, i: nat)
    requires i < |m.objects| <= |after.objects|
  {
    after.objects[i].state.tableId == m.objects[i].state.tableId
  }

  /** No runtime of the room changed. */
  predicate RoomStays(m: Memory, after: Memory, room: RoomId) {
    |m.objects| <= |after.objects|
    && forall i: nat | i < |m.objects| :: UnchangedAt(m, after, room, i)
  }

  predicate UnchangedAt(m: Memory, after: Memory, room: RoomId, i: nat)
    requires i < |m.objects| <= |after.objects|
  {
    m.objects[i].state.tableId == room ==> after.objects[i] == m.objects[i]
  }

  lemma HandlerStays(a: Logs, b: Logs, m: Memory, after: Memory, h: Handler)
    requires Grows(a, b) && HandlerOk(a, m, h) && ObjectsStay(m, after)
    requires h.stage.Looking? ==> RoomStays(m, after, RoomOf(h.job))
    ensures HandlerOk(b, after, h)
  {
    assert Open(HandlerSeal, 0);
    var room := RoomOf(h.job);
    match h.stage {
      case SnapshotRead(s, _) => SnapshotGrows(a, b, room, s);
      case Holding(ref) => assert StaysAt(m, after, ref);
      case Looking(ref, _) => assert StaysAt(m, after, ref) && UnchangedAt(m, after, room, ref);
      case Checking(ref, q, f) =>
        assert StaysAt(m, after, ref);
        var k: nat :| SourceKnown(a, h.job, q, f, k);
        SourceGrows(a, b, h.job, q, f, k);
      case Committing(ref, c) =>
        assert StaysAt(m, after, ref);
        InputGrows(a, b, h.job, c);
      case Committed(ref, c, result) =>
        assert StaysAt(m, after, ref);
        if if h.job.Act? then MoveTaken(result) else TimeoutTaken(result) {
          RuntimeGrows(a, b, room, Runtime(c.state, c.deadline));
        }
      case _ =>
    }
  }

  lemma SameStays(m: Memory)
    ensures ObjectsStay(m, m) && forall room :: RoomStays(m, m, room)
  {
  }

  lemma OpsGrow(a: Logs, b: Logs, db: Db, after: Db)
    requires Grows(a, b) && OpsKnown(db, a)
    requires forall id | id in after.operations ::
               if id in db.operations then after.operations[id] == db.operations[id]
               else id.Submitted? && after.operations[id].kind != PlayerAction
    ensures OpsKnown(after, b)
  {
    forall id | id in after.operations ensures OpKnown(b, id, after.operations[id]) {
      if id in db.operations {
        assert OpKnown(a, id, db.operations[id]);
        OpGrows(a, b, id, db.operations[id]);
      }
    }
  }

  lemma OpGrows(a: Logs, b: Logs, id: ActionId, o: Operation)
    requires Grows(a, b) && OpKnown(a, id, o)
    ensures OpKnown(b, id, o)
  {
    if id.ServerTimeout? {
      var j: nat :| TimeoutEntry(a[id.handId], j, id, o);
      StateKept(a[id.handId], b[id.handId], j);
      assert TimeoutEntry(b[id.handId], j, id, o);
    }
    if o.kind == PlayerAction {
      var j: nat :| EnteredAt(a[o.handId], j, id, o);
      assert Continues(a[o.handId], b[o.handId]);
      assert a[o.handId].entries[j] == b[o.handId].entries[j];
      assert EnteredAt(b[o.handId], j, id, o);
    }
  }

  // ---- The commit ----

  function Taken(logs: Logs, q: Request, f: Finalized, deadline: Option<Deadline>): Logs
    requires q.handId in logs
  {
    logs[q.handId := Extended(logs[q.handId], Entry(f.state, f.events, q.actionId), deadline)]
  }

  /** A new id either appends to its hand, or finds that the hand has moved on since the decision. */
  lemma NewCommit(db: Db, logs: Logs, job: Job, q: Request, f: Finalized, k: nat, c: CommitInput) returns (d: Deal)
    requires DbOk(db, logs) && SourceKnown(logs, job, q, f, k) && q.actionId !in db.operations
    requires exists deadline, automatic :: c == CommitOf(q, f, deadline, automatic)
    ensures Commit(db, c) == (db, StaleSnapshot)
            || (&& Commit(db, c) == (Appended(db, c), Acked(OperationOf(c), true))
                && k == |logs[q.handId].entries|
                && LogOk(logs[q.handId], d) && LastState(logs[q.handId]).phase != Complete
                && CommitFor(c, logs[q.handId], Entry(f.state, f.events, q.actionId))
                && Decided(LastState(logs[q.handId]), Entry(f.state, f.events, q.actionId))
                && f.state.handId == q.handId)
    ensures Commit(db, c).1 == StaleSnapshot <==> k < |logs[q.handId].entries|
  {
    var log := logs[q.handId];
    d := KeptLog(db, logs, q.handId);
    LatestIsLast(db, log, d);
    if LastState(log).version == q.expectedVersion {
      CurrentIsLast(log, d, k);
      DecidedLast(log, d, StateAt(log, k), q, f, k);
    }
  }

  lemma TakenDbOk(db: Db, logs: Logs, q: Request, f: Finalized, c: CommitInput, d: Deal)
    requires DbOk(db, logs) && q.handId in logs && q.actionId !in db.operations
    requires c.actionId == q.actionId && c.handId == q.handId
    requires LogOk(logs[q.handId], d) && LastState(logs[q.handId]).phase != Complete
    requires CommitFor(c, logs[q.handId], Entry(f.state, f.events, q.actionId))
    requires Decided(LastState(logs[q.handId]), Entry(f.state, f.events, q.actionId))
    requires f.state.handId == q.handId
    ensures var after := Taken(logs, q, f, c.deadline);
            && DbOk(Appended(db, c), after) && Grows(logs, after)
            && RuntimeKnown(after, logs[q.handId].room, Runtime(c.state, c.deadline))
  {
    AppendedDbOk(db, logs, c, Entry(f.state, f.events, q.actionId), d);
    LastIsKnown(Taken(logs, q, f, c.deadline), q.handId, Runtime(c.state, c.deadline));
  }

  lemma NewTimeout(logs: Logs, job: Job, q: Request, f: Finalized, k: nat, c: CommitInput)
    requires job.Expire? && SourceKnown(logs, job, q, f, k) && k == |logs[q.handId].entries|
    requires exists deadline, automatic :: c == CommitOf(q, f, deadline, automatic)
    requires StateAt(logs[q.handId], k).handId == q.handId
    ensures q.actionId.ServerTimeout? && TimeoutOp(Taken(logs, q, f, c.deadline), q.actionId, OperationOf(c))
  {
    var after := Taken(logs, q, f, c.deadline);
    assert Continues(logs[q.handId], after[q.handId]);
    StateKept(logs[q.handId], after[q.handId], k);
    assert TimeoutEntry(after[q.handId], k, q.actionId, OperationOf(c));
  }

  lemma StateHand(db: Db, logs: Logs, hand: HandId, k: nat)
    requires DbOk(db, logs) && hand in logs && k <= |logs[hand].entries|
    ensures StateAt(logs[hand], k).handId == hand && StateAt(logs[hand], k).tableId == logs[hand].room
  {
    var d := KeptLog(db, logs, hand);
    LogStart(logs[hand], d);
    LogPlaysOn(logs[hand], d, k);
    PlaysOnFacts(logs[hand].start, StateAt(logs[hand], k), d);
  }

  lemma SameVersionSameState(db: Db, logs: Logs, hand: HandId, j: nat, k: nat)
    requires DbOk(db, logs) && hand in logs && j <= |logs[hand].entries| && k <= |logs[hand].entries|
    requires StateAt(logs[hand], j).version == StateAt(logs[hand], k).version
    ensures j == k
  {
    var d := KeptLog(db, logs, hand);
    LogShaped(logs[hand], d);
    if j < k {
      VersionsGrow(logs[hand], j, k);
    } else if k < j {
      VersionsGrow(logs[hand], k, j);
    }
  }

  lemma TimeoutSource(db: Db, logs: Logs, job: Job, q: Request, f: Finalized, k: nat)
    requires DbOk(db, logs) && job.Expire? && SourceKnown(logs, job, q, f, k)
    ensures q == TimeoutRequest(logs[q.handId].room, StateAt(logs[q.handId], k))
    ensures q.actionId == ServerTimeout(q.handId, StateAt(logs[q.handId], k).version)
    ensures Decide(StateAt(logs[q.handId], k), q) == Ok(f)
  {
    StateHand(db, logs, q.handId, k);
  }

  lemma EntryAnswers(log: Log, j: nat, q: Request, o: Operation, f: Finalized)
    requires q.actionId.ServerTimeout? && TimeoutEntry(log, j, q.actionId, o)
    requires o.kind == PlayerAction && o.handId == q.handId
    requires q == TimeoutRequest(log.room, StateAt(log, j)) && Decide(StateAt(log, j), q) == Ok(f)
    ensures Repeats(o, q) && j < |log.entries| && log.entries[j].state == f.state
  {
  }

  lemma EntryKnown(db: Db, logs: Logs, hand: HandId, j: nat, s: State)
    requires DbOk(db, logs) && hand in logs && j <= |logs[hand].entries| && StateAt(logs[hand], j) == s
    ensures RuntimeKnown(logs, logs[hand].room, Runtime(s, None))
  {
    StateHand(db, logs, hand, j);
  }

  lemma RecordedTimeout(db: Db, logs: Logs, id: ActionId) returns (j: nat)
    requires OpsKnown(db, logs) && id in db.operations && id.ServerTimeout?
    ensures var o := db.operations[id];
            && o.kind == PlayerAction && o.handId == id.handId && id.handId in logs
            && TimeoutEntry(logs[id.handId], j, id, o)
  {
    assert OpKnown(logs, id, db.operations[id]);
    j :| TimeoutEntry(logs[id.handId], j, id, db.operations[id]);
  }

  /** The version tells which entry it is. */
  lemma RecordedHere(db: Db, logs: Logs, id: ActionId, k: nat)
    requires DbOk(db, logs) && OpsKnown(db, logs) && id in db.operations && id.ServerTimeout? && id.handId in logs
    requires k <= |logs[id.handId].entries| && StateAt(logs[id.handId], k).version == id.version
    ensures TimeoutEntry(logs[id.handId], k, id, db.operations[id])
    ensures db.operations[id].kind == PlayerAction && db.operations[id].handId == id.handId
  {
    var j := RecordedTimeout(db, logs, id);
    SameVersionSameState(db, logs, id.handId, j, k);
  }

  lemma RecordedAnswers(db: Db, logs: Logs, q: Request, f: Finalized, k: nat)
    requires DbOk(db, logs) && OpsKnown(db, logs) && q.actionId in db.operations && q.handId in logs
    requires k <= |logs[q.handId].entries| && Playable(StateAt(logs[q.handId], k))
    requires q == TimeoutRequest(logs[q.handId].room, StateAt(logs[q.handId], k))
    requires q.actionId == ServerTimeout(q.handId, StateAt(logs[q.handId], k).version)
    requires Decide(StateAt(logs[q.handId], k), q) == Ok(f)
    ensures Repeats(db.operations[q.actionId], q)
    ensures RuntimeKnown(logs, logs[q.handId].room, Runtime(f.state, None))
  {
    RecordedHere(db, logs, q.actionId, k);
    EntryAnswers(logs[q.handId], k, q, db.operations[q.actionId], f);
    NextIsKnown(db, logs, q.handId, k, f.state);
  }

  lemma NextIsKnown(db: Db, logs: Logs, hand: HandId, k: nat, s: State)
    requires DbOk(db, logs) && hand in logs && k < |logs[hand].entries| && logs[hand].entries[k].state == s
    ensures RuntimeKnown(logs, logs[hand].room, Runtime(s, None))
  {
    EntryKnown(db, logs, hand, k + 1, s);
  }

  /** A timeout already on record was the same request in the same state, so it led where this one leads. */
  lemma RepeatedTimeout(db: Db, logs: Logs, job: Job, q: Request, f: Finalized, k: nat)
    requires DbOk(db, logs) && OpsKnown(db, logs) && job.Expire? && SourceKnown(logs, job, q, f, k)
    requires q.actionId in db.operations
    ensures Repeats(db.operations[q.actionId], q)
    ensures RuntimeKnown(logs, RoomOf(job), Runtime(f.state, None))
  {
    TimeoutSource(db, logs, job, q, f, k);
    RecordedAnswers(db, logs, q, f, k);
  }

  lemma DeadlineFree(logs: Logs, room: RoomId, s: State, a: Option<Deadline>, b: Option<Deadline>)
    requires RuntimeKnown(logs, room, Runtime(s, a))
    ensures RuntimeKnown(logs, room, Runtime(s, b))
  {
  }

  /** What a commit keeps, and what its answer is good for. */
  ghost predicate CommitSound(db: Db, logs: Logs, job: Job, c: CommitInput, after: Logs) {
    var (next, result) := Commit(db, c);
    && DbOk(next, after) && OpsKnown(next, after) && Grows(logs, after)
    && OperationsKept(db, next) && next.draining == db.draining
    && ResultKnown(after, job, c, result)
  }

  lemma RepeatKeeps(db: Db, logs: Logs, job: Job, q: Request, f: Finalized, k: nat, c: CommitInput)
    requires DbOk(db, logs) && OpsKnown(db, logs) && SourceKnown(logs, job, q, f, k) && !job.Peek?
    requires q.actionId in db.operations && exists deadline, automatic :: c == CommitOf(q, f, deadline, automatic)
    ensures CommitSound(db, logs, job, c, logs)
  {
    GrowsItself(logs);
    if job.Expire? {
      RepeatedTimeout(db, logs, job, q, f, k);
      DeadlineFree(logs, RoomOf(job), f.state, None, c.deadline);
    }
  }

  lemma NewKeeps(db: Db, logs: Logs, job: Job, q: Request, f: Finalized, k: nat, c: CommitInput)
    returns (after: Logs)
    requires DbOk(db, logs) && OpsKnown(db, logs) && SourceKnown(logs, job, q, f, k) && !job.Peek?
    requires q.actionId !in db.operations && exists deadline, automatic :: c == CommitOf(q, f, deadline, automatic)
    ensures CommitSound(db, logs, job, c, after)
  {
    after := logs;
    GrowsItself(logs);
    var d := NewCommit(db, logs, job, q, f, k, c);
    if Commit(db, c) != (db, StaleSnapshot) {
      after := Taken(logs, q, f, c.deadline);
      TakenDbOk(db, logs, q, f, c, d);
      TakenOps(db, logs, job, q, f, k, c);
    }
  }

  /** A commit keeps the tables in order, changes no operation and drains nothing; its answer is one the handler can
      act on. */
  lemma CommitKeeps(db: Db, logs: Logs, job: Job, c: CommitInput) returns (after: Logs)
    requires DbOk(db, logs) && OpsKnown(db, logs) && InputKnown(logs, job, c)
    ensures CommitSound(db, logs, job, c, after)
  {
    var q, f, k: nat, deadline, automatic :|
      c == CommitOf(q, f, deadline, automatic) && SourceKnown(logs, job, q, f, k);
    if q.actionId in db.operations {
      RepeatKeeps(db, logs, job, q, f, k, c);
      after := logs;
    } else {
      after := NewKeeps(db, logs, job, q, f, k, c);
    }
  }

  lemma TakenOps(db: Db, logs: Logs, job: Job, q: Request, f: Finalized, k: nat, c: CommitInput)
    requires DbOk(db, logs) && OpsKnown(db, logs) && SourceKnown(logs, job, q, f, k) && !job.Peek?
    requires k == |logs[q.handId].entries| && exists deadline, automatic :: c == CommitOf(q, f, deadline, automatic)
    requires Grows(logs, Taken(logs, q, f, c.deadline))
    ensures OpsKnown(Appended(db, c), Taken(logs, q, f, c.deadline))
  {
    var after, next := Taken(logs, q, f, c.deadline), Appended(db, c);
    forall id | id in next.operations ensures OpKnown(after, id, next.operations[id]) {
      if id == q.actionId {
        assert EnteredAt(after[q.handId], k, id, OperationOf(c));
        if job.Expire? {
          StateHand(db, logs, q.handId, k);
          NewTimeout(logs, job, q, f, k, c);
        }
      } else {
        assert OpKnown(logs, id, db.operations[id]);
        OpGrows(logs, after, id, db.operations[id]);
      }
    }
  }

  lemma GrowsItself(logs: Logs)
    ensures Grows(logs, logs)
  {
  }

  // ---- One step of a handler ----

  lemma OpenMemory(logs: Logs, m: Memory, ref: Ref, room: RoomId)
    requires MemoryOk(logs, m) && InRoomAt(m, ref, room)
    ensures RuntimeKnown(logs, room, m.objects[ref])
  {
    assert Open(MemorySeal, 0);
    assert ObjectKnown(logs, m.objects[ref]);
  }

  lemma StoreNames(logs: Logs, m: Memory, room: RoomId)
    requires MemoryOk(logs, m) && room in m.store
    ensures InRoomAt(m, m.store[room], room)
  {
    assert Open(MemorySeal, 0);
  }

  /** What the first query finds is the last snapshot of a recorded hand. */
  lemma FoundIsNewest(db: Db, logs: Logs, room: RoomId)
    requires DbOk(db, logs) && ReadLatest(db, room).Fit?
    ensures var s := ReadLatest(db, room).snapshot;
            && s.roomId == room && s.handId in logs && logs[s.handId].room == room
            && SnapshotIs(logs[s.handId], |logs[s.handId].entries|, s)
  {
    var s := ReadLatest(db, room).snapshot;
    LatestKnown(db, logs, room);
    LastOfFilter(db.snapshots, room, s.handId);
    var d := KeptLog(db, logs, s.handId);
    LastSnapshot(logs[s.handId], d);
  }

  /** Nothing about it alone is wrong. */
  lemma FoundKnown(db: Db, logs: Logs, room: RoomId)
    requires DbOk(db, logs)
    ensures ReadLatest(db, room) != Unfit
    ensures ReadLatest(db, room).Fit? ==> SnapshotKnown(logs, room, ReadLatest(db, room).snapshot)
  {
    RecoveryRoundTrip(db, logs, room);
    if ReadLatest(db, room).Fit? {
      FoundIsNewest(db, logs, room);
    }
  }

  /** A player's move decided on a runtime in memory is the engine's answer in a committed state. */
  lemma MoveKnown(db: Db, logs: Logs, m: Memory, ref: Ref, job: Job)
    requires DbOk(db, logs) && MemoryOk(logs, m) && job.Act? && InRoomAt(m, ref, RoomOf(job))
    requires job.request.actionId.Submitted? && Playable(m.objects[ref].state)
    requires PlayerMove(m.objects[ref].state, job.request, job.deadline).Ok?
    ensures InputKnown(logs, job, PlayerMove(m.objects[ref].state, job.request, job.deadline).value)
  {
    var q, s := job.request, m.objects[ref].state;
    OpenMemory(logs, m, ref, RoomOf(job));
    var k: nat :| k <= |logs[s.handId].entries| && s == StateAt(logs[s.handId], k);
    var f := Decide(s, q).value;
    assert SourceKnown(logs, job, q, f, k);
    assert CommitOf(q, f, job.deadline, false) == PlayerMove(s, q, job.deadline).value;
  }

  lemma TimeoutKnown(db: Db, logs: Logs, m: Memory, ref: Ref, job: Job, q: Request, f: Finalized)
    requires DbOk(db, logs) && MemoryOk(logs, m) && job.Expire? && InRoomAt(m, ref, RoomOf(job))
    requires q == TimeoutRequest(RoomOf(job), m.objects[ref].state) && Playable(m.objects[ref].state)
    requires Decide(m.objects[ref].state, q) == Ok(f)
    ensures exists k: nat :: SourceKnown(logs, job, q, f, k)
  {
    var s := m.objects[ref].state;
    OpenMemory(logs, m, ref, RoomOf(job));
    var k: nat :| k <= |logs[s.handId].entries| && s == StateAt(logs[s.handId], k);
    assert SourceKnown(logs, job, q, f, k);
  }

  /** Reading again what the lock has kept gives the same request. */
  lemma RereadSame(room: RoomId, s: State)
    ensures Reread(TimeoutRequest(room, s), s) == TimeoutRequest(room, s)
  {
  }

  ghost predicate StepSound(db: Db, logs: Logs, m: Memory, h: Handler, o: Outcome, after: Logs) {
    && TablesOk(o.db, after) && MemoryOk(after, o.memory)
    && HandlerOk(after, o.memory, h.(stage := o.stage))
    && Grows(logs, after) && OperationsKept(db, o.db)
    && ObjectsStay(m, o.memory)
    && (forall room :: !Locked(h) || room != RoomOf(h.job) ==> RoomStays(m, o.memory, room))
  }

  ghost predicate HandlerReady(db: Db, logs: Logs, m: Memory, h: Handler) {
    TablesOk(db, logs) && MemoryOk(logs, m) && HandlerOk(logs, m, h)
  }

  lemma QuietSound(db: Db, logs: Logs, m: Memory, h: Handler, stage: Stage)
    requires HandlerReady(db, logs, m, h) && StageKnown(logs, m, h.job, stage)
    ensures StepSound(db, logs, m, h, Outcome(db, m, stage), logs)
  {
    GrowsItself(logs);
    SameStays(m);
  }

  lemma HoldingSound(db: Db, logs: Logs, m: Memory, h: Handler)
    requires HandlerReady(db, logs, m, h) && h.stage.Holding? && MemorySound(m) && RefOk(m, h.stage)
    ensures StageKnown(logs, m, h.job, Held(m, h.job, h.stage.ref))
  {
    assert Open(HandlerSeal, 0);
    var ref := h.stage.ref;
    if h.job.Act? && PlayerMove(m.objects[ref].state, h.job.request, h.job.deadline).Ok? {
      MoveKnown(db, logs, m, ref, h.job);
    }
  }

  lemma LookingSound(db: Db, logs: Logs, m: Memory, h: Handler)
    requires HandlerReady(db, logs, m, h) && h.stage.Looking? && MemorySound(m) && RefOk(m, h.stage)
    ensures StageKnown(logs, m, h.job, Looked(db, m, h.job, h.stage.ref, h.stage.request))
  {
    assert Open(HandlerSeal, 0);
    LookedKnown(db, logs, m, h.job, h.stage.ref);
  }

  lemma LookedKnown(db: Db, logs: Logs, m: Memory, job: Job, ref: Ref)
    requires DbOk(db, logs) && MemoryOk(logs, m) && MemorySound(m) && job.Expire? && InRoomAt(m, ref, RoomOf(job))
    ensures var q := TimeoutRequest(RoomOf(job), m.objects[ref].state);
            StageKnown(logs, m, job, Looked(db, m, job, ref, q))
  {
    var s := m.objects[ref].state;
    var q := TimeoutRequest(RoomOf(job), s);
    RereadSame(RoomOf(job), s);
    if Decide(s, q).Ok? {
      TimeoutKnown(db, logs, m, ref, job, q, Decide(s, q).value);
    }
  }

  lemma CheckingSound(db: Db, logs: Logs, m: Memory, h: Handler)
    requires HandlerReady(db, logs, m, h) && h.stage.Checking?
    ensures h.job.Expire?
    ensures StageKnown(logs, m, h.job,
                       Committing(h.stage.ref, CommitOf(h.stage.request, h.stage.decision, h.job.deadline, true)))
  {
    assert Open(HandlerSeal, 0);
    var k: nat :| SourceKnown(logs, h.job, h.stage.request, h.stage.decision, k);
  }

  lemma ReadSound(db: Db, logs: Logs, m: Memory, h: Handler)
    requires HandlerReady(db, logs, m, h) && h.stage.SnapshotRead?
    ensures var r := Restored(h.stage.snapshot, h.stage.hand);
            StepSound(db, logs, m, h, Outcome(db, Stored(m, RoomOf(h.job), r), Holding(|m.objects|)), logs)
  {
    assert Open(HandlerSeal, 0);
    assert Open(MemorySeal, 0);
    GrowsItself(logs);
    var room, s := RoomOf(h.job), h.stage.snapshot;
    var r := Restored(s, h.stage.hand);
    var after := Stored(m, room, r);
    var k: nat :| SnapshotIs(logs[s.handId], k, s);
    SnapshotObject(db, logs, s, k, r);
    forall i: nat | i < |after.objects| ensures ObjectKnown(logs, after.objects[i]) {
      if i < |m.objects| {
        assert ObjectKnown(logs, m.objects[i]);
      }
    }
    forall other | other in after.store ensures InRoomAt(after, after.store[other], other) {
      if other != room {
        assert InRoomAt(m, m.store[other], other);
      }
    }
  }

  lemma SnapshotObject(db: Db, logs: Logs, s: Snapshot, k: nat, r: Runtime)
    requires TablesOk(db, logs) && s.handId in logs && SnapshotIs(logs[s.handId], k, s) && r.state == s.state
    ensures ObjectKnown(logs, r) && r.state.tableId == logs[s.handId].room
  {
    var d := KeptLog(db, logs, s.handId);
    StateHand(db, logs, s.handId, k);
  }

  lemma DrainedTables(db: Db, logs: Logs, room: RoomId)
    requires TablesOk(db, logs)
    ensures TablesOk(db.(draining := db.draining + {room}), logs)
  {
    var after := db.(draining := db.draining + {room});
    SideChange(db, after, logs);
    assert Open(TablesSeal, 0);
    GrowsItself(logs);
    OpsGrow(logs, logs, db, after);
  }

  lemma AnsweredOk(logs: Logs, after: Logs, m: Memory, h: Handler, result: CommitResult)
    requires HandlerOk(logs, m, h) && h.stage.Committing? && ResultKnown(after, h.job, h.stage.input, result)
    ensures HandlerOk(after, m, h.(stage := Committed(h.stage.ref, h.stage.input, result)))
  {
    assert Open(HandlerSeal, 0);
  }

  lemma OpenInput(logs: Logs, m: Memory, h: Handler)
    requires HandlerOk(logs, m, h) && h.stage.Committing?
    ensures InputKnown(logs, h.job, h.stage.input)
  {
    assert Open(HandlerSeal, 0);
  }

  lemma CommittingSound(db: Db, logs: Logs, m: Memory, h: Handler) returns (after: Logs)
    requires HandlerReady(db, logs, m, h) && h.stage.Committing?
    ensures var (next, result) := Commit(db, h.stage.input);
            StepSound(db, logs, m, h, Outcome(next, m, Committed(h.stage.ref, h.stage.input, result)), after)
  {
    OpenInput(logs, m, h);
    assert OpsKnown(db, logs) by {
      assert Open(TablesSeal, 0);
    }
    after := CommitKeeps(db, logs, h.job, h.stage.input);
    AnsweredOk(logs, after, m, h, Commit(db, h.stage.input).1);
    MemoryGrows(logs, after, m);
    SameStays(m);
  }

  lemma SetMemory(logs: Logs, m: Memory, ref: Ref, room: RoomId, r: Runtime)
    requires MemoryOk(logs, m) && InRoomAt(m, ref, room) && RuntimeKnown(logs, room, r) && r.state.tableId == room
    ensures MemoryOk(logs, Set(m, ref, r)) && ObjectsStay(m, Set(m, ref, r))
    ensures forall other :: other != room ==> RoomStays(m, Set(m, ref, r), other)
  {
    assert Open(MemorySeal, 0);
    var moved := Set(m, ref, r);
    forall i: nat | i < |moved.objects| ensures ObjectKnown(logs, moved.objects[i]) {
      assert ObjectKnown(logs, m.objects[i]);
    }
    forall other | other in moved.store ensures InRoomAt(moved, moved.store[other], other) {
      assert InRoomAt(m, m.store[other], other);
    }
  }

  lemma SetSound(db: Db, logs: Logs, m: Memory, h: Handler)
    requires HandlerReady(db, logs, m, h) && h.stage.Committed? && Locked(h)
    requires if h.job.Act? then MoveTaken(h.stage.result) else TimeoutTaken(h.stage.result)
    ensures InRoomAt(m, h.stage.ref, RoomOf(h.job))
    ensures var moved := Set(m, h.stage.ref, Runtime(h.stage.input.state, h.stage.input.deadline));
            forall reply :: StepSound(db, logs, m, h, Outcome(db, moved, Over(reply)), logs)
  {
    assert Open(HandlerSeal, 0);
    GrowsItself(logs);
    var r := Runtime(h.stage.input.state, h.stage.input.deadline);
    KnownPlays(db, logs, RoomOf(h.job), r);
    SetMemory(logs, m, h.stage.ref, RoomOf(h.job), r);
  }

  lemma SettleSound(db: Db, logs: Logs, m: Memory, h: Handler)
    requires HandlerReady(db, logs, m, h) && h.stage.Committed? && RefOk(m, h.stage)
    ensures StepSound(db, logs, m, h, Settle(db, m, h.job, h.stage.ref, h.stage.input, h.stage.result), logs)
  {
    var result := h.stage.result;
    assert !h.job.Peek? by {
      assert Open(HandlerSeal, 0);
    }
    if if h.job.Act? then MoveTaken(result) else TimeoutTaken(result) {
      SetSound(db, logs, m, h);
    } else if h.job.Act? {
      QuietSound(db, logs, m, h, Over(Some(MoveReply(result))));
    } else {
      QuietSound(db, logs, m, h, Thrown(h.job));
    }
  }

  lemma DoomedSound(db: Db, logs: Logs, m: Memory, h: Handler)
    requires HandlerReady(db, logs, m, h)
    ensures var after := db.(draining := db.draining + {RoomOf(h.job)});
            StepSound(db, logs, m, h, Outcome(after, m, NoTable(h.job)), logs)
            && StepSound(db, logs, m, h, Outcome(after, m, Over(None)), logs)
  {
    DrainedTables(db, logs, RoomOf(h.job));
    GrowsItself(logs);
    SameStays(m);
  }

  /** The steps that change neither tables nor memory. */
  predicate Quiet(stage: Stage) {
    !stage.SnapshotRead? && !stage.Doomed? && !stage.Threw? && !stage.Committing? && !stage.Committed?
  }

  lemma QuietNext(db: Db, logs: Logs, m: Memory, h: Handler)
    requires HandlerReady(db, logs, m, h) && MemorySound(m) && RefOk(m, h.stage) && Quiet(h.stage)
    ensures StageKnown(logs, m, h.job, Next(db, m, h.job, h.stage).stage)
  {
    match h.stage {
      case Recovering =>
        if RoomOf(h.job) in m.store {
          StoreNames(logs, m, RoomOf(h.job));
        }
      case Missed => FoundKnown(db, logs, RoomOf(h.job));
      case Holding(_) => HoldingSound(db, logs, m, h);
      case Looking(_, _) => LookingSound(db, logs, m, h);
      case Checking(_, _, _) => CheckingSound(db, logs, m, h);
      case _ =>
    }
  }

  /** Every step of a handler is sound. */
  lemma NextSound(db: Db, logs: Logs, m: Memory, h: Handler) returns (after: Logs)
    requires HandlerReady(db, logs, m, h) && MemorySound(m) && RefOk(m, h.stage)
    ensures StepSound(db, logs, m, h, Next(db, m, h.job, h.stage), after)
  {
    after := logs;
    match h.stage {
      case SnapshotRead(_, _) =>
        ReadSound(db, logs, m, h);
        QuietSound(db, logs, m, h, Doomed);
      case Doomed => DoomedSound(db, logs, m, h);
      case Threw => DoomedSound(db, logs, m, h);
      case Committing(_, _) => after := CommittingSound(db, logs, m, h);
      case Committed(_, _, _) => SettleSound(db, logs, m, h);
      case _ =>
        QuietNext(db, logs, m, h);
        QuietSound(db, logs, m, h, Next(db, m, h.job, h.stage).stage);
    }
  }

  // ---- One step of the system ----

  /** Everything but the stepping handler. */
  lemma OthersStay(sys: System, logs: Logs, id: HandlerId, o: Outcome, after: Logs, other: HandlerId)
    requires SystemOk(sys, logs) && id in sys.handlers && other in sys.handlers && other != id
    requires var h := sys.handlers[id]; StepSound(sys.db, logs, MemoryOf(sys, h.server), h, o, after)
    ensures var h, g := sys.handlers[id], sys.handlers[other];
            HandlerOk(after, if g.server == h.server then o.memory else MemoryOf(sys, g.server), g)
  {
    var h, g := sys.handlers[id], sys.handlers[other];
    var m := MemoryOf(sys, g.server);
    if g.server == h.server {
      if g.stage.Looking? && SameRoom(g, h) {
        assert Locked(g) || g.job.Peek?;
        assert g.job.Expire? by {
          assert Open(HandlerSeal, 0);
        }
        assert !Locked(h);
      }
      HandlerStays(logs, after, m, o.memory, g);
    } else {
      SameStays(m);
      HandlerStays(logs, after, m, m, g);
    }
  }

  /** The lock stays with one handler. */
  lemma LockStays(sys: System, id: HandlerId, stage: Stage)
    requires Exclusive(sys) && Enabled(sys, Proceed(id)) && Sound(sys)
    requires stage == Next(sys.db, MemoryOf(sys, sys.handlers[id].server), sys.handlers[id].job,
                           sys.handlers[id].stage).stage
    ensures Exclusive(sys.(handlers := sys.handlers[id := sys.handlers[id].(stage := stage)]))
  {
    var h := sys.handlers[id];
    if !Locked(h) && Locked(h.(stage := stage)) {
      assert h.stage.Queued?;
    }
  }

  lemma ProceedKeeps(sys: System, logs: Logs, id: HandlerId) returns (after: Logs)
    requires SystemOk(sys, logs) && Enabled(sys, Proceed(id)) && Sound(sys)
    ensures SystemOk(Advance(sys, Proceed(id)), after) && Grows(logs, after)
    ensures OperationsKept(sys.db, Advance(sys, Proceed(id)).db)
  {
    var h := sys.handlers[id];
    var m := MemoryOf(sys, h.server);
    MemoryIsOk(sys, logs, h.server);
    MemoryIsSound(sys.db, logs, m);
    after := NextSound(sys.db, logs, m, h);
    var o := Next(sys.db, m, h.job, h.stage);
    var next := Advance(sys, Proceed(id));
    forall server | server in next.servers ensures MemoryOk(after, next.servers[server]) {
      if server != h.server {
        MemoryGrows(logs, after, sys.servers[server]);
      }
    }
    forall other | other in next.handlers
      ensures HandlerOk(after, MemoryOf(next, next.handlers[other].server), next.handlers[other])
    {
      if other != id {
        OthersStay(sys, logs, id, o, after, other);
      }
    }
    LockStays(sys, id, o.stage);
  }

  lemma DealKeeps(sys: System, logs: Logs, server: ServerId, c: CreateInput) returns (after: Logs)
    requires SystemOk(sys, logs) && Enabled(sys, DealHand(server, c)) && Sound(sys)
    ensures SystemOk(Advance(sys, DealHand(server, c)), after) && Grows(logs, after)
    ensures OperationsKept(sys.db, Advance(sys, DealHand(server, c)).db)
  {
    after := logs;
    GrowsItself(logs);
    if Create(sys.db, c).1.Created? {
      var d :| StartOk(c.roomId, c.handId, c.state, d);
      CreatedDbOk(sys.db, logs, c, d);
      after := logs[c.handId := FreshLog(c)];
      DealtTables(sys.db, logs, c, after);
      DealtMemories(sys, logs, server, c, after);
    }
  }

  lemma DealtTables(db: Db, logs: Logs, c: CreateInput, after: Logs)
    requires TablesOk(db, logs) && Create(db, c).1.Created? && Grows(logs, after) && DbOk(Create(db, c).0, after)
    ensures TablesOk(Create(db, c).0, after)
  {
    assert Open(TablesSeal, 0);
    OpsGrow(logs, after, db, Create(db, c).0);
  }

  lemma DealtMemory(logs: Logs, m: Memory, room: RoomId, r: Runtime)
    requires MemoryOk(logs, m) && RuntimeKnown(logs, room, r) && r.state.tableId == room
    ensures room in m.store ==> m.store[room] < |m.objects|
    ensures MemoryOk(logs, Dealt(m, room, r)) && ObjectsStay(m, Dealt(m, room, r))
    ensures forall other :: other != room ==> RoomStays(m, Dealt(m, room, r), other)
  {
    assert Open(MemorySeal, 0);
    if room in m.store {
      assert InRoomAt(m, m.store[room], room);
    }
    var after := Dealt(m, room, r);
    forall i: nat | i < |after.objects| ensures ObjectKnown(logs, after.objects[i]) {
      if i < |m.objects| {
        assert ObjectKnown(logs, m.objects[i]);
      }
    }
    forall other | other in after.store ensures InRoomAt(after, after.store[other], other) {
      if other != room {
        assert InRoomAt(m, m.store[other], other);
      }
    }
  }

  lemma DealtMemories(sys: System, logs: Logs, server: ServerId, c: CreateInput, after: Logs)
    requires SystemOk(sys, logs) && LockFree(sys, server, c.roomId) && Grows(logs, after)
    requires RuntimeKnown(after, c.roomId, Runtime(c.state, Some(c.deadline))) && c.state.tableId == c.roomId
    requires Create(sys.db, c).1.Created? && TablesOk(Create(sys.db, c).0, after)
    requires var m := MemoryOf(sys, server); c.roomId in m.store ==> m.store[c.roomId] < |m.objects|
    ensures SystemOk(System(Create(sys.db, c).0,
                            sys.servers[server := Dealt(MemoryOf(sys, server), c.roomId,
                                                        Runtime(c.state, Some(c.deadline)))],
                            sys.handlers), after)
  {
    var m := MemoryOf(sys, server);
    var dealt := Dealt(m, c.roomId, Runtime(c.state, Some(c.deadline)));
    var next := System(Create(sys.db, c).0, sys.servers[server := dealt], sys.handlers);
    MemoryIsOk(sys, logs, server);
    MemoryGrows(logs, after, m);
    DealtMemory(after, m, c.roomId, Runtime(c.state, Some(c.deadline)));
    forall other | other in next.servers ensures MemoryOk(after, next.servers[other]) {
      if other != server {
        MemoryGrows(logs, after, sys.servers[other]);
      }
    }
    forall id | id in next.handlers
      ensures HandlerOk(after, MemoryOf(next, next.handlers[id].server), next.handlers[id])
    {
      DealtHandler(sys, logs, server, c.roomId, dealt, after, id);
    }
  }

  lemma DealtHandler(sys: System, logs: Logs, server: ServerId, room: RoomId, dealt: Memory, after: Logs,
                     id: HandlerId)
    requires SystemOk(sys, logs) && LockFree(sys, server, room) && Grows(logs, after) && id in sys.handlers
    requires ObjectsStay(MemoryOf(sys, server), dealt)
    requires forall other :: other != room ==> RoomStays(MemoryOf(sys, server), dealt, other)
    ensures var g := sys.handlers[id];
            HandlerOk(after, if g.server == server then dealt else MemoryOf(sys, g.server), g)
  {
    var g := sys.handlers[id];
    var m := MemoryOf(sys, g.server);
    if g.server == server {
      if g.stage.Looking? {
        assert g.job.Expire? by {
          assert Open(HandlerSeal, 0);
        }
        assert Locked(g);
      }
      HandlerStays(logs, after, m, dealt, g);
    } else {
      SameStays(m);
      HandlerStays(logs, after, m, m, g);
    }
  }

  lemma SpawnKeeps(sys: System, logs: Logs, id: HandlerId, server: ServerId, job: Job)
    requires SystemOk(sys, logs) && Enabled(sys, Spawn(id, server, job)) && Sound(sys)
    ensures SystemOk(Advance(sys, Spawn(id, server, job)), logs)
  {
  }

  lemma ForgetKeeps(sys: System, logs: Logs, server: ServerId, room: RoomId)
    requires SystemOk(sys, logs) && Sound(sys)
    ensures var m := MemoryOf(sys, server);
            SystemOk(sys.(servers := sys.servers[server := m.(store := m.store - {room})]), logs)
  {
    var m := MemoryOf(sys, server);
    var after := m.(store := m.store - {room});
    MemoryIsOk(sys, logs, server);
    assert MemoryOk(logs, after) by {
      assert Open(MemorySeal, 0);
      forall other | other in after.store ensures InRoomAt(after, after.store[other], other) {
        assert InRoomAt(m, m.store[other], other);
      }
    }
    GrowsItself(logs);
    var next := sys.(servers := sys.servers[server := after]);
    forall id | id in next.handlers
      ensures HandlerOk(logs, MemoryOf(next, next.handlers[id].server), next.handlers[id])
    {
      if next.handlers[id].server == server {
        HandlerStays(logs, logs, m, after, next.handlers[id]);
      }
    }
  }

  lemma CrashKeeps(sys: System, logs: Logs, server: ServerId)
    requires SystemOk(sys, logs) && Sound(sys)
    ensures SystemOk(Advance(sys, Crash(server)), logs)
  {
    EmptyMemoryOk(logs);
    var next := Advance(sys, Crash(server));
    forall id | id in next.handlers
      ensures HandlerOk(logs, MemoryOf(next, next.handlers[id].server), next.handlers[id])
    {
      assert next.handlers[id] == sys.handlers[id] && sys.handlers[id].server != server;
    }
  }

  lemma TakeKeeps(sys: System, logs: Logs, room: RoomId, user: PlayerId, stack: int)
    requires SystemOk(sys, logs) && Enabled(sys, TakeSeat(room, user, stack)) && Sound(sys)
    ensures SystemOk(Advance(sys, TakeSeat(room, user, stack)), logs)
    ensures OperationsKept(sys.db, Advance(sys, TakeSeat(room, user, stack)).db)
  {
    var db := Advance(sys, TakeSeat(room, user, stack)).db;
    SideChange(sys.db, db, logs);
    GrowsItself(logs);
    assert TablesOk(db, logs) by {
      assert Open(TablesSeal, 0);
      OpsGrow(logs, logs, sys.db, db);
    }
  }

  lemma LeaveKeeps(sys: System, logs: Logs, action: ActionId, operation: Operation)
    requires SystemOk(sys, logs) && Enabled(sys, LeaveSeat(action, operation)) && Sound(sys)
    ensures SystemOk(Advance(sys, LeaveSeat(action, operation)), logs)
    ensures OperationsKept(sys.db, Advance(sys, LeaveSeat(action, operation)).db)
  {
    var db := Advance(sys, LeaveSeat(action, operation)).db;
    SideChange(sys.db, db, logs);
    GrowsItself(logs);
    assert TablesOk(db, logs) by {
      assert Open(TablesSeal, 0);
      OpsGrow(logs, logs, sys.db, db);
    }
  }

  /** Every step keeps the system in order, and neither loses nor changes an operation. */
  lemma AdvanceKeeps(sys: System, logs: Logs, event: ServerEvent) returns (after: Logs)
    requires SystemOk(sys, logs) && Enabled(sys, event)
    ensures Sound(sys) && SystemOk(Advance(sys, event), after) && Grows(logs, after)
    ensures OperationsKept(sys.db, Advance(sys, event).db)
  {
    SystemIsSound(sys, logs);
    after := logs;
    GrowsItself(logs);
    match event {
      case DealHand(server, c) => after := DealKeeps(sys, logs, server, c);
      case Spawn(id, server, job) => SpawnKeeps(sys, logs, id, server, job);
      case Proceed(id) => after := ProceedKeeps(sys, logs, id);
      case Forget(server, room) => ForgetKeeps(sys, logs, server, room);
      case Crash(server) => CrashKeeps(sys, logs, server);
      case TakeSeat(room, user, stack) => TakeKeeps(sys, logs, room, user, stack);
      case LeaveSeat(action, operation) => LeaveKeeps(sys, logs, action, operation);
    }
  }
}

/** Any number of servers over one database: what every interleaving of requests, repeats, timeouts, recoveries and
    crashes keeps true, and exactly when a room is drained. */
module DurableRuns {
  import opened BettingInvariant
  import opened Board
  import opened DurableLog
  import opened Game
  import opened Gateway
  import opened HandEvents
  import opened HandLogs
  import opened HandRecords
  import opened Recovery
  import opened Reducer
  import opened Sealing
  import opened Sequences
  import opened ServerSteps
  import opened Table
  import opened TableServers
  import opened Wrappers

  /** The event can happen in this system and leads to that one. */
  ghost predicate Takes(sys: System, event: ServerEvent, next: System) {
    forall k {:trigger Open(TakesSeal, k)} :: Open(TakesSeal, k) ==>
      Enabled(sys, event) && (Sound(sys) ==> next == Advance(sys, event))
  }

  ghost predicate SystemRun(states: seq<System>, events: seq<ServerEvent>) {
    && |states| == |events| + 1
    && states[0].db.hands == [] && states[0].db.snapshots == [] && states[0].db.events == []
    && states[0].db.operations == map[] && states[0].servers == map[] && states[0].handlers == map[]
    && forall k {:trigger events[k]} | 0 <= k < |events| :: Takes(states[k], events[k], states[k + 1])
  }

  lemma NothingYet(sys: System)
    requires sys.db.hands == [] && sys.db.snapshots == [] && sys.db.events == [] && sys.db.operations == map[]
    requires sys.servers == map[] && sys.handlers == map[]
    ensures SystemOk(sys, map[])
  {
  }

  /** A later state of the run, with everything an earlier one had on record. */
  ghost predicate Later(first: Db, logs: Logs, sys: System, after: Logs) {
    SystemOk(sys, after) && Grows(logs, after) && OperationsKept(first, sys.db)
  }

  lemma TakesKeeps(sys: System, logs: Logs, event: ServerEvent, next: System) returns (after: Logs)
    requires SystemOk(sys, logs) && Takes(sys, event, next)
    ensures Sound(sys) && Enabled(sys, event) && next == Advance(sys, event)
    ensures Later(sys.db, logs, next, after)
  {
    assert Open(TakesSeal, 0);
    after := AdvanceKeeps(sys, logs, event);
  }

  lemma GrowsOn(a: Logs, b: Logs, c: Logs)
    requires Grows(a, b) && Grows(b, c)
    ensures Grows(a, c)
  {
    forall hand | hand in a ensures Continues(a[hand], c[hand]) {
      assert Continues(a[hand], b[hand]) && Continues(b[hand], c[hand]);
      assert c[hand].entries[..|b[hand].entries|][..|a[hand].entries|] == c[hand].entries[..|a[hand].entries|];
    }
  }

  lemma {:induction false} RunGrows(states: seq<System>, events: seq<ServerEvent>, j: nat, k: nat, logs: Logs)
    returns (after: Logs)
    requires SystemRun(states, events) && j <= k < |states| && SystemOk(states[j], logs)
    ensures Later(states[j].db, logs, states[k], after)
  {
    if j == k {
      after := logs;
      GrowsItself(logs);
    } else {
      var before := RunGrows(states, events, j, k - 1, logs);
      var event := events[k - 1];
      after := TakesKeeps(states[k - 1], before, event, states[k]);
      GrowsOn(logs, before, after);
    }
  }

  lemma RunKeepsSystem(states: seq<System>, events: seq<ServerEvent>, k: nat) returns (logs: Logs)
    requires SystemRun(states, events) && k < |states|
    ensures SystemOk(states[k], logs)
  {
    NothingYet(states[0]);
    logs := RunGrows(states, events, 0, k, map[]);
  }

  // ---- One recovery ----

  lemma SnapshotIsNewest(db: Db, logs: Logs, room: RoomId, s: Snapshot, k: nat)
    requires DbOk(db, logs) && s.handId in logs && logs[s.handId].room == room && SnapshotIs(logs[s.handId], k, s)
    ensures LatestOfHand(db, room, s.handId) == Some(s) <==> k == |logs[s.handId].entries|
    ensures HistoryOk(s, EventsOf(db, s.handId)) <==> k == |logs[s.handId].entries|
    ensures |Filter(db.snapshots, OfHand(room, s.handId))| == |logs[s.handId].entries| + 1
  {
    var log := logs[s.handId];
    var d := KeptLog(db, logs, s.handId);
    LatestIsLast(db, log, d);
    LogShaped(log, d);
    NamedAt1(log, d, k);
    OnlyLastReplays(log, k, s);
    if k < |log.entries| {
      VersionsGrow(log, k, |log.entries|);
    }
  }

  /** The players of any state of a log have the same names. */
  lemma NamedAt1(log: Log, d: Deal, k: nat)
    requires LogOk(log, d) && k <= |log.entries|
    ensures Named(log, StateAt(log, k).players)
  {
    LogPlaysOn(log, d, k);
    PlaysOnFacts(log.start, StateAt(log, k), d);
    forall j: nat | j < |log.entries| ensures NamedAt(log, j, StateAt(log, k).players) {
      LogPlaysOn(log, d, j);
      PlaysOnFacts(log.start, StateAt(log, j), d);
    }
  }

  lemma ReadingKnown(sys: System, logs: Logs, id: HandlerId) returns (k: nat)
    requires SystemOk(sys, logs) && id in sys.handlers && sys.handlers[id].stage.SnapshotRead?
    ensures var h := sys.handlers[id];
            var s := h.stage.snapshot;
            && s.roomId == RoomOf(h.job) && s.handId in logs && logs[s.handId].room == RoomOf(h.job)
            && SnapshotIs(logs[s.handId], k, s)
  {
    var h := sys.handlers[id];
    assert HandlerOk(logs, MemoryOf(sys, h.server), h);
    assert Open(HandlerSeal, 0);
    k :| SnapshotIs(logs[h.stage.snapshot.handId], k, h.stage.snapshot);
  }

  /** When its second query runs, a recovery is doomed exactly when the snapshot it read is no longer its hand's newest;
      otherwise it holds exactly the last committed state of that hand. */
  lemma RecoveryOutcome(sys: System, logs: Logs, id: HandlerId)
    requires SystemOk(sys, logs) && id in sys.handlers && sys.handlers[id].stage.SnapshotRead?
    ensures Enabled(sys, Proceed(id)) && Sound(sys)
    ensures var h := sys.handlers[id];
            var s := h.stage.snapshot;
            var next := Advance(sys, Proceed(id));
            var g := next.handlers[id];
            && (g.stage.Doomed? <==> LatestOfHand(sys.db, RoomOf(h.job), s.handId) != Some(s))
            && (!g.stage.Doomed? ==>
                  && g.stage.Holding? && s.handId in logs && s.state == LastState(logs[s.handId])
                  && MemoryOf(next, g.server).objects[g.stage.ref] == Restored(s, h.stage.hand)
                  && RoomOf(h.job) in MemoryOf(next, g.server).store
                  && MemoryOf(next, g.server).store[RoomOf(h.job)] == g.stage.ref)
  {
    SystemIsSound(sys, logs);
    var s := sys.handlers[id].stage.snapshot;
    var k := ReadingKnown(sys, logs, id);
    SnapshotIsNewest(sys.db, logs, RoomOf(sys.handlers[id].job), s, k);
  }

  // ---- Two reads of one recovery ----

  /** The handler does not move and its server does not crash. */
  predicate Waits(event: ServerEvent, id: HandlerId, server: ServerId) {
    event != Proceed(id) && event != Crash(server)
  }

  lemma HandlerWaits(sys: System, event: ServerEvent, id: HandlerId)
    requires Enabled(sys, event) && Sound(sys) && id in sys.handlers && Waits(event, id, sys.handlers[id].server)
    ensures id in Advance(sys, event).handlers && Advance(sys, event).handlers[id] == sys.handlers[id]
  {
  }

  lemma {:induction false} HandlerStill(states: seq<System>, events: seq<ServerEvent>, j: nat, k: nat, id: HandlerId)
    requires SystemRun(states, events) && j <= k < |states| && id in states[j].handlers
    requires forall i | j <= i < k :: Waits(events[i], id, states[j].handlers[id].server)
    ensures id in states[k].handlers && states[k].handlers[id] == states[j].handlers[id]
  {
    if j < k {
      HandlerStill(states, events, j, k - 1, id);
      var logs := RunKeepsSystem(states, events, k - 1);
      var event := events[k - 1];
      var after := TakesKeeps(states[k - 1], logs, event, states[k]);
      HandlerWaits(states[k - 1], event, id);
    }
  }

  /** The snapshots of the hand on record. */
  function SnapshotCount(db: Db, room: RoomId, hand: HandId): nat { |Filter(db.snapshots, OfHand(room, hand))| }

  lemma FirstRead(sys: System, logs: Logs, id: HandlerId)
    requires SystemOk(sys, logs) && Enabled(sys, Proceed(id)) && Sound(sys) && sys.handlers[id].stage.Missed?
    requires Advance(sys, Proceed(id)).handlers[id].stage.SnapshotRead?
    ensures var room := RoomOf(sys.handlers[id].job);
            ReadLatest(sys.db, room).Fit?
            && ReadLatest(sys.db, room).snapshot == Advance(sys, Proceed(id)).handlers[id].stage.snapshot
  {
  }

  /** The snapshot of a hand is the one its log now ends with. */
  predicate EndsWith(logs: Logs, room: RoomId, s: Snapshot) {
    && s.handId in logs && logs[s.handId].room == room
    && SnapshotIs(logs[s.handId], |logs[s.handId].entries|, s)
  }

  lemma OvertakenByCount(db: Db, logs: Logs, later: Db, after: Logs, room: RoomId, s: Snapshot)
    requires DbOk(db, logs) && DbOk(later, after) && Grows(logs, after) && EndsWith(logs, room, s)
    ensures LatestOfHand(later, room, s.handId) != Some(s)
            <==> SnapshotCount(later, room, s.handId) > SnapshotCount(db, room, s.handId)
  {
    var k := |logs[s.handId].entries|;
    StateKept(logs[s.handId], after[s.handId], k);
    SnapshotIsNewest(db, logs, room, s, k);
    SnapshotIsNewest(later, after, room, s, k);
  }

  lemma FirstQuery(states: seq<System>, events: seq<ServerEvent>, j: nat, id: HandlerId)
    returns (logs: Logs, read: Logs)
    requires SystemRun(states, events) && j < |events| && events[j] == Proceed(id)
    requires id in states[j].handlers && states[j].handlers[id].stage.Missed?
    requires id in states[j + 1].handlers && states[j + 1].handlers[id].stage.SnapshotRead?
    ensures SystemOk(states[j], logs) && SystemOk(states[j + 1], read) && Grows(logs, read)
    ensures EndsWith(logs, RoomOf(states[j].handlers[id].job), states[j + 1].handlers[id].stage.snapshot)
    ensures states[j + 1].handlers[id].job == states[j].handlers[id].job
  {
    logs := RunKeepsSystem(states, events, j);
    read := TakesKeeps(states[j], logs, events[j], states[j + 1]);
    FirstRead(states[j], logs, id);
    FoundIsNewest(states[j].db, logs, RoomOf(states[j].handlers[id].job));
  }

  lemma SecondQuery(states: seq<System>, events: seq<ServerEvent>, k: nat, id: HandlerId, logs: Logs)
    requires SystemRun(states, events) && k < |events| && events[k] == Proceed(id) && SystemOk(states[k], logs)
    requires id in states[k].handlers && states[k].handlers[id].stage.SnapshotRead?
    ensures id in states[k + 1].handlers
    ensures var s := states[k].handlers[id].stage.snapshot;
            states[k + 1].handlers[id].stage.Doomed?
            <==> LatestOfHand(states[k].db, RoomOf(states[k].handlers[id].job), s.handId) != Some(s)
  {
    var after := TakesKeeps(states[k], logs, events[k], states[k + 1]);
    RecoveryOutcome(states[k], logs, id);
  }

  /** A recovery drains if and only if the hand whose snapshot it read gained an entry between its two reads. */
  lemma RecoveryDrainsIffOvertaken(states: seq<System>, events: seq<ServerEvent>, j: nat, k: nat, id: HandlerId)
    requires SystemRun(states, events) && j < k < |events|
    requires id in states[j].handlers && states[j].handlers[id].stage.Missed?
    requires id in states[j + 1].handlers && states[j + 1].handlers[id].stage.SnapshotRead?
    requires events[j] == Proceed(id) && events[k] == Proceed(id)
    requires forall i | j < i < k :: Waits(events[i], id, states[j + 1].handlers[id].server)
    ensures id in states[k + 1].handlers
    ensures var room, hand := RoomOf(states[j].handlers[id].job), states[j + 1].handlers[id].stage.snapshot.handId;
            states[k + 1].handlers[id].stage.Doomed?
            <==> SnapshotCount(states[k].db, room, hand) > SnapshotCount(states[j].db, room, hand)
  {
    var logs, read := FirstQuery(states, events, j, id);
    HandlerStill(states, events, j + 1, k, id);
    var later := RunGrows(states, events, j + 1, k, read);
    GrowsOn(logs, read, later);
    SecondQuery(states, events, k, id, later);
    var s := states[j + 1].handlers[id].stage.snapshot;
    OvertakenByCount(states[j].db, logs, states[k].db, later, RoomOf(states[j].handlers[id].job), s);
  }

  // ---- Why a room is drained ----

  /** Another commit to the hand came between a recovery's two reads. */
  predicate ReadOvertaken(sys: System, event: ServerEvent, room: RoomId) {
    && event.Proceed? && event.id in sys.handlers
    && var h := sys.handlers[event.id];
    && RoomOf(h.job) == room && h.stage.SnapshotRead?
    && LatestOfHand(sys.db, room, h.stage.snapshot.handId) != Some(h.stage.snapshot)
  }

  /** A guarded timeout commits to a hand that moved on after the timeout was decided. */
  predicate TimeoutOvertaken(sys: System, event: ServerEvent, room: RoomId) {
    && event.Proceed? && event.id in sys.handlers
    && var h := sys.handlers[event.id];
    && RoomOf(h.job) == room && h.job.Expire? && h.job.guarded && h.stage.Committing?
    && MovedOn(sys.db, h.stage.input)
  }

  /** A new action meets a hand whose newest snapshot is past the version it was decided in. */
  predicate MovedOn(db: Db, c: CommitInput) {
    var latest := LatestOfHand(db, c.roomId, c.handId);
    c.actionId !in db.operations && latest.Some? && latest.value.version > c.expectedVersion
  }

  predicate Overtaken(sys: System, event: ServerEvent, room: RoomId) {
    ReadOvertaken(sys, event, room) || TimeoutOvertaken(sys, event, room)
  }

  lemma InputSource(sys: System, logs: Logs, id: HandlerId) returns (q: Request, f: Finalized, k: nat)
    requires SystemOk(sys, logs) && id in sys.handlers && sys.handlers[id].stage.Committing?
    ensures SourceKnown(logs, sys.handlers[id].job, q, f, k) && !sys.handlers[id].job.Peek?
    ensures exists deadline, automatic :: sys.handlers[id].stage.input == CommitOf(q, f, deadline, automatic)
  {
    var h := sys.handlers[id];
    OpenInput(logs, MemoryOf(sys, h.server), h);
    q, f, k :| exists deadline, automatic ::
      h.stage.input == CommitOf(q, f, deadline, automatic) && SourceKnown(logs, h.job, q, f, k);
  }

  lemma BehindMeansOlder(db: Db, logs: Logs, hand: HandId, k: nat)
    requires DbOk(db, logs) && hand in logs && k <= |logs[hand].entries|
    ensures LatestOfHand(db, logs[hand].room, hand).Some?
    ensures k < |logs[hand].entries|
            <==> StateAt(logs[hand], k).version < LatestOfHand(db, logs[hand].room, hand).value.version
  {
    var d := KeptLog(db, logs, hand);
    LatestIsLast(db, logs[hand], d);
    LogShaped(logs[hand], d);
    if k < |logs[hand].entries| {
      VersionsGrow(logs[hand], k, |logs[hand].entries|);
    }
  }

  /** Of commits about to run, exactly those of new actions whose hand has moved on are refused as stale. */
  lemma StaleIffMovedOn(sys: System, logs: Logs, id: HandlerId)
    requires SystemOk(sys, logs) && id in sys.handlers && sys.handlers[id].stage.Committing?
    ensures Commit(sys.db, sys.handlers[id].stage.input).1 == StaleSnapshot
            <==> MovedOn(sys.db, sys.handlers[id].stage.input)
    ensures sys.handlers[id].stage.input.roomId == RoomOf(sys.handlers[id].job)
  {
    var h := sys.handlers[id];
    var q, f, k := InputSource(sys, logs, id);
    BehindMeansOlder(sys.db, logs, q.handId, k);
    if q.actionId !in sys.db.operations {
      var d := NewCommit(sys.db, logs, h.job, q, f, k, h.stage.input);
    }
  }

  /** A lookup never finds a timeout's id under another request. */
  lemma LookupAgrees(db: Db, logs: Logs, m: Memory, h: Handler)
    requires HandlerReady(db, logs, m, h) && h.stage.Looking? && MemorySound(m) && RefOk(m, h.stage)
    ensures !Looked(db, m, h.job, h.stage.ref, h.stage.request).Threw?
  {
    assert h.job.Expire? && InRoomAt(m, h.stage.ref, RoomOf(h.job))
           && h.stage.request == TimeoutRequest(RoomOf(h.job), m.objects[h.stage.ref].state) by {
      assert Open(HandlerSeal, 0);
    }
    assert OpsKnown(db, logs) by {
      assert Open(TablesSeal, 0);
    }
    var q, s := h.stage.request, m.objects[h.stage.ref].state;
    RereadSame(RoomOf(h.job), s);
    OpenMemory(logs, m, h.stage.ref, RoomOf(h.job));
    var k: nat :| k <= |logs[s.handId].entries| && s == StateAt(logs[s.handId], k);
    if q.actionId in db.operations {
      RecordedAgrees(db, logs, q, k);
    } else {
      DecideNeverThrows(db, logs, s.handId, k, q);
    }
  }

  lemma RecordedAgrees(db: Db, logs: Logs, q: Request, k: nat)
    requires DbOk(db, logs) && OpsKnown(db, logs) && q.handId in logs && k <= |logs[q.handId].entries|
    requires q == TimeoutRequest(logs[q.handId].room, StateAt(logs[q.handId], k)) && q.actionId in db.operations
    requires StateAt(logs[q.handId], k).handId == q.handId
    ensures Repeats(db.operations[q.actionId], q)
  {
    var j := RecordedTimeout(db, logs, q.actionId);
    SameVersionSameState(db, logs, q.handId, j, k);
  }

  lemma DecideNeverThrows(db: Db, logs: Logs, hand: HandId, k: nat, q: Request)
    requires DbOk(db, logs) && hand in logs && k <= |logs[hand].entries| && Playable(StateAt(logs[hand], k))
    ensures Decide(StateAt(logs[hand], k), q).Err? ==> Decide(StateAt(logs[hand], k), q).error.ByEngine?
  {
    var d := KeptLog(db, logs, hand);
    LogPlaysOn(logs[hand], d, k);
    PlaysOnFacts(logs[hand].start, StateAt(logs[hand], k), d);
    DecideFits(StateAt(logs[hand], k), q, d);
  }

  /** What has doomed a handler, or will once its commit has answered. */
  predicate FacesDrain(h: Handler) {
    h.stage.Doomed? || h.stage.Threw?
    || (h.stage.Committed? && h.job.Expire? && h.job.guarded && !TimeoutTaken(h.stage.result))
  }

  lemma CommitDoom(sys: System, logs: Logs, id: HandlerId)
    requires SystemOk(sys, logs) && id in sys.handlers && sys.handlers[id].stage.Committing?
    requires sys.handlers[id].job.Expire? && !TimeoutTaken(Commit(sys.db, sys.handlers[id].stage.input).1)
    ensures sys.handlers[id].stage.input.roomId == RoomOf(sys.handlers[id].job)
    ensures MovedOn(sys.db, sys.handlers[id].stage.input)
  {
    var h := sys.handlers[id];
    MemoryIsOk(sys, logs, h.server);
    StaleIffMovedOn(sys, logs, id);
    var after := CommittingSound(sys.db, logs, MemoryOf(sys, h.server), h);
    OnlyStale(sys, logs, id, after);
  }

  /** Only a recovery's second query and a commit can doom a handler. */
  lemma QuietStages(db: Db, logs: Logs, m: Memory, h: Handler)
    requires HandlerReady(db, logs, m, h) && MemorySound(m) && RefOk(m, h.stage) && !FacesDrain(h)
    requires !h.stage.SnapshotRead? && !h.stage.Committing?
    ensures !FacesDrain(h.(stage := Next(db, m, h.job, h.stage).stage))
  {
    match h.stage {
      case Missed => FoundKnown(db, logs, RoomOf(h.job));
      case Looking(_, _) => LookupAgrees(db, logs, m, h);
      case _ =>
    }
  }

  /** A handler comes to face a drain only by being overtaken. */
  lemma DoomHasCause(sys: System, logs: Logs, id: HandlerId)
    requires SystemOk(sys, logs) && Enabled(sys, Proceed(id)) && Sound(sys) && !FacesDrain(sys.handlers[id])
    requires FacesDrain(Advance(sys, Proceed(id)).handlers[id])
    ensures Overtaken(sys, Proceed(id), RoomOf(sys.handlers[id].job))
  {
    var h := sys.handlers[id];
    if h.stage.SnapshotRead? {
      RecoveryOutcome(sys, logs, id);
    } else if h.stage.Committing? {
      CommitDoom(sys, logs, id);
    } else {
      MemoryIsOk(sys, logs, h.server);
      QuietStages(sys.db, logs, MemoryOf(sys, h.server), h);
    }
  }

  lemma OnlyStale(sys: System, logs: Logs, id: HandlerId, after: Logs)
    requires id in sys.handlers && sys.handlers[id].stage.Committing? && sys.handlers[id].job.Expire?
    requires var h := sys.handlers[id];
             var (next, result) := Commit(sys.db, h.stage.input);
             HandlerOk(after, MemoryOf(sys, h.server), h.(stage := Committed(h.stage.ref, h.stage.input, result)))
    ensures var result := Commit(sys.db, sys.handlers[id].stage.input).1;
            TimeoutTaken(result) || result == StaleSnapshot
  {
    assert Open(HandlerSeal, 0);
  }

  /** Conversely, whoever is overtaken comes to face a drain. */
  lemma OvertakenFacesDrain(sys: System, logs: Logs, event: ServerEvent, room: RoomId)
    requires SystemOk(sys, logs) && Overtaken(sys, event, room)
    ensures Enabled(sys, event) && Sound(sys) && FacesDrain(Advance(sys, event).handlers[event.id])
  {
    SystemIsSound(sys, logs);
    if ReadOvertaken(sys, event, room) {
      RecoveryOutcome(sys, logs, event.id);
    } else {
      StaleIffMovedOn(sys, logs, event.id);
    }
  }

  /** Some step before the k-th overtook a handler of the room. */
  ghost predicate OvertakenBefore(states: seq<System>, events: seq<ServerEvent>, k: nat, room: RoomId) {
    exists i :: 0 <= i < k && i < |events| && i < |states| && Overtaken(states[i], events[i], room)
  }

  /** A step that does not move a handler leaves it unspawned, gone or as it was. */
  lemma HandlerKept(sys: System, event: ServerEvent, id: HandlerId)
    requires Enabled(sys, event) && Sound(sys) && event != Proceed(id)
    requires id in Advance(sys, event).handlers && FacesDrain(Advance(sys, event).handlers[id])
    ensures id in sys.handlers && sys.handlers[id] == Advance(sys, event).handlers[id]
  {
  }

  lemma SameJob(sys: System, id: HandlerId)
    requires Enabled(sys, Proceed(id)) && Sound(sys)
    ensures id in Advance(sys, Proceed(id)).handlers
    ensures Advance(sys, Proceed(id)).handlers[id].job == sys.handlers[id].job
  {
  }

  lemma {:induction false} FacedHasCause(states: seq<System>, events: seq<ServerEvent>, k: nat, id: HandlerId)
    requires SystemRun(states, events) && k < |states|
    requires id in states[k].handlers && FacesDrain(states[k].handlers[id])
    ensures OvertakenBefore(states, events, k, RoomOf(states[k].handlers[id].job))
  {
    if k > 0 {
      var logs := RunKeepsSystem(states, events, k - 1);
      var event := events[k - 1];
      var after := TakesKeeps(states[k - 1], logs, event, states[k]);
      if event != Proceed(id) {
        HandlerKept(states[k - 1], event, id);
        FacedHasCause(states, events, k - 1, id);
      } else {
        SameJob(states[k - 1], id);
        if FacesDrain(states[k - 1].handlers[id]) {
          FacedHasCause(states, events, k - 1, id);
        } else {
          DoomHasCause(states[k - 1], logs, id);
        }
      }
    }
  }

  lemma DrainingStep(sys: System, event: ServerEvent, room: RoomId)
    requires Enabled(sys, event) && Sound(sys)
    requires room in Advance(sys, event).db.draining && room !in sys.db.draining
    ensures event.Proceed? && event.id in sys.handlers && FacesDrain(sys.handlers[event.id])
    ensures room == RoomOf(sys.handlers[event.id].job)
  {
  }

  /** Over all interleavings a room is drained only after a recovery was overtaken between its two reads, or a guarded
      timeout between its decision and its commit. */
  lemma {:induction false} DrainedOnlyWhenOvertaken(states: seq<System>, events: seq<ServerEvent>, k: nat, room: RoomId)
    requires SystemRun(states, events) && k < |states|
    requires room in states[k].db.draining && room !in states[0].db.draining
    ensures OvertakenBefore(states, events, k, room)
  {
    if k > 0 {
      if room in states[k - 1].db.draining {
        DrainedOnlyWhenOvertaken(states, events, k - 1, room);
      } else {
        var logs := RunKeepsSystem(states, events, k - 1);
        var event := events[k - 1];
        var after := TakesKeeps(states[k - 1], logs, event, states[k]);
        DrainingStep(states[k - 1], event, room);
        FacedHasCause(states, events, k - 1, event.id);
      }
    }
  }

  // ---- A draining room comes to rest ----

  /** Where a handler can get in a room that was draining before it began: an action no further than the draining check
      under the lock, a timeout no further than its own. */
  predicate ComesToRest(h: Handler) {
    && (h.job.Act? ==> h.stage.Arrived? || h.stage.Queued? || h.stage.Admitted? || h.stage.Over?)
    && (h.job.Expire? ==> !h.stage.Committing? && !h.stage.Committed?)
    && (h.job.Peek? ==> !h.stage.Committing? && !h.stage.Committed? && !h.stage.Looking? && !h.stage.Checking?)
  }

  lemma RestStep(db: Db, m: Memory, h: Handler)
    requires MemorySound(m) && RefOk(m, h.stage) && ComesToRest(h) && RoomOf(h.job) in db.draining
    ensures var o := Next(db, m, h.job, h.stage); ComesToRest(h.(stage := o.stage))
    ensures db.draining <= Next(db, m, h.job, h.stage).db.draining
  {
  }

  lemma DrainingStays(sys: System, event: ServerEvent)
    requires Enabled(sys, event) && Sound(sys)
    ensures sys.db.draining <= Advance(sys, event).db.draining
  {
  }

  lemma RestKept(sys: System, event: ServerEvent, id: HandlerId)
    requires Enabled(sys, event) && Sound(sys) && id in Advance(sys, event).handlers
    requires id in sys.handlers ==> ComesToRest(sys.handlers[id])
    requires id in sys.handlers ==> RoomOf(sys.handlers[id].job) in sys.db.draining
    ensures ComesToRest(Advance(sys, event).handlers[id])
    ensures id in sys.handlers ==> Advance(sys, event).handlers[id].job == sys.handlers[id].job
  {
    if event == Proceed(id) {
      RestStep(sys.db, MemoryOf(sys, sys.handlers[id].server), sys.handlers[id]);
    }
  }

  /** Over all runs: in a room that is draining, no action and no timeout that arrives after that ever gets to
      commit. */
  lemma {:induction false} DrainingRoomRests(states: seq<System>, events: seq<ServerEvent>, j: nat, k: nat,
                                             room: RoomId, id: HandlerId)
    requires SystemRun(states, events) && j <= k < |states|
    requires room in states[j].db.draining && id !in states[j].handlers
    requires forall i | j <= i < k :: events[i].Spawn? && events[i].id == id ==> RoomOf(events[i].job) == room
    ensures room in states[k].db.draining
    ensures id in states[k].handlers ==>
              RoomOf(states[k].handlers[id].job) == room && ComesToRest(states[k].handlers[id])
  {
    if j < k {
      DrainingRoomRests(states, events, j, k - 1, room, id);
      var logs := RunKeepsSystem(states, events, k - 1);
      var event := events[k - 1];
      var after := TakesKeeps(states[k - 1], logs, event, states[k]);
      DrainingStays(states[k - 1], event);
      if id in states[k].handlers {
        RestKept(states[k - 1], event, id);
      }
    }
  }

  // ---- What is on record ----

  /** An acknowledged commit can be recovered at once: a recovery that reads after it finds exactly the runtime the
      handler is about to set. */
  lemma CommittedIsRecovered(sys: System, logs: Logs, id: HandlerId)
    requires SystemOk(sys, logs) && id in sys.handlers && sys.handlers[id].stage.Committing?
    requires MoveTaken(Commit(sys.db, sys.handlers[id].stage.input).1)
    ensures var c := sys.handlers[id].stage.input;
            Verdict(Commit(sys.db, c).0, c.roomId) == Ready(Runtime(c.state, c.deadline))
  {
    var h := sys.handlers[id];
    var c := h.stage.input;
    var q, f, k := InputSource(sys, logs, id);
    var d := NewCommit(sys.db, logs, h.job, q, f, k, c);
    TakenDbOk(sys.db, logs, q, f, c, d);
    TakenLast(sys.db, logs, q, f, c);
    RecoveryRoundTrip(Appended(sys.db, c), Taken(logs, q, f, c.deadline), c.roomId);
  }

  lemma TakenLast(db: Db, logs: Logs, q: Request, f: Finalized, c: CommitInput)
    requires q.handId in logs && c.handId == q.handId
    ensures var after := Taken(logs, q, f, c.deadline);
            && LastState(after[q.handId]) == f.state && after[q.handId].deadline == c.deadline
            && LatestOfRoom(Appended(db, c), c.roomId) == Some(Snapshot(c.roomId, c.handId, c.newVersion, c.state))
  {
    FilterAppend(db.snapshots, Snapshot(c.roomId, c.handId, c.newVersion, c.state), OfRoom(c.roomId));
  }

  lemma OperationsStay(states: seq<System>, events: seq<ServerEvent>, j: nat, k: nat)
    requires SystemRun(states, events) && j <= k < |states|
    ensures OperationsKept(states[j].db, states[k].db)
  {
    var logs := RunKeepsSystem(states, events, j);
    var after := RunGrows(states, events, j, k, logs);
  }

  /** The operation is a player's action on this hand, with this content. */
  predicate StandsFor(o: Operation, room: RoomId, hand: HandId, user: PlayerId, payload: PayloadHash) {
    o.kind == PlayerAction && o.roomId == room && o.handId == hand && o.userId == user && o.payloadHash == payload
  }

  /** What a request under an id already on record is told: the stored acknowledgement if it is the same request of the
      same player, else that the id is taken. */
  function RecordsAnswer(o: Operation, q: Request): Reply {
    if StandsFor(o, q.roomId, q.handId, q.userId, q.payloadHash) then Success(o.ack) else Failure(IdConflict)
  }

  /** Once an action is on record, every later lookup of its id, on any server, answers with the acknowledgement stored
      then or with a conflict, and a commit that still comes, decided before or after, writes nothing and is answered
      from the record. */
  lemma RepeatsReplay(states: seq<System>, events: seq<ServerEvent>, j: nat, k: nat, q: Request, c: CommitInput)
    requires SystemRun(states, events) && j <= k < |states|
    requires q.actionId == c.actionId && q.actionId in states[j].db.operations
    ensures var o := states[j].db.operations[q.actionId];
            && Lookup(states[k].db, q) == Some(RecordsAnswer(o, q))
            && Commit(states[k].db, c)
               == (states[k].db,
                   if StandsFor(o, c.roomId, c.handId, c.actorUserId, c.payloadHash) then Acked(o, false)
                   else ActionIdConflict)
  {
    OperationsStay(states, events, j, k);
  }

  /** The handler is still to look its action up, or has answered from the record. */
  predicate AnswersFrom(h: Handler, answer: Reply) {
    h.job.Act? && (h.stage.Arrived? || h.stage.Queued? || h.stage == Over(Some(answer)))
  }

  lemma AnswerStep(db: Db, m: Memory, h: Handler)
    requires MemorySound(m) && RefOk(m, h.stage) && h.job.Act? && h.job.request.actionId in db.operations
    requires !h.stage.Over? && AnswersFrom(h, RecordsAnswer(db.operations[h.job.request.actionId], h.job.request))
    ensures AnswersFrom(h.(stage := Next(db, m, h.job, h.stage).stage),
                        RecordsAnswer(db.operations[h.job.request.actionId], h.job.request))
  {
  }

  lemma AnswerKept(sys: System, event: ServerEvent, id: HandlerId, answer: Reply)
    requires Enabled(sys, event) && Sound(sys) && id in sys.handlers && AnswersFrom(sys.handlers[id], answer)
    requires event != Crash(sys.handlers[id].server)
    requires var q := sys.handlers[id].job.request;
             q.actionId in sys.db.operations && RecordsAnswer(sys.db.operations[q.actionId], q) == answer
    ensures var next := Advance(sys, event);
            && id in next.handlers && AnswersFrom(next.handlers[id], answer)
            && next.handlers[id].job == sys.handlers[id].job && next.handlers[id].server == sys.handlers[id].server
  {
    if event == Proceed(id) {
      AnswerStep(sys.db, MemoryOf(sys, sys.handlers[id].server), sys.handlers[id]);
    }
  }

  /** Over all runs: a request whose id is on record before its handler has the room's lock is answered from the record
      and goes no further, whatever happens around it. */
  lemma {:induction false} RepeatIsAnswered(states: seq<System>, events: seq<ServerEvent>, j: nat, k: nat,
                                            id: HandlerId)
    requires SystemRun(states, events) && j <= k < |states| && id in states[j].handlers
    requires var h := states[j].handlers[id];
             && h.job.Act? && (h.stage.Arrived? || h.stage.Queued?)
             && h.job.request.actionId in states[j].db.operations
             && forall i | j <= i < k :: events[i] != Crash(h.server)
    ensures var h := states[j].handlers[id];
            && id in states[k].handlers
            && states[k].handlers[id].job == h.job && states[k].handlers[id].server == h.server
            && AnswersFrom(states[k].handlers[id],
                           RecordsAnswer(states[j].db.operations[h.job.request.actionId], h.job.request))
  {
    if j < k {
      RepeatIsAnswered(states, events, j, k - 1, id);
      OperationsStay(states, events, j, k - 1);
      var logs := RunKeepsSystem(states, events, k - 1);
      var after := TakesKeeps(states[k - 1], logs, events[k - 1], states[k]);
      var q := states[j].handlers[id].job.request;
      AnswerKept(states[k - 1], events[k - 1], id, RecordsAnswer(states[j].db.operations[q.actionId], q));
    }
  }

  /** A server that has dealt a hand plays it: its runtime for the room is the dealt state. */
  lemma DealtIsPlayed(sys: System, logs: Logs, server: ServerId, c: CreateInput)
    requires SystemOk(sys, logs) && Enabled(sys, DealHand(server, c)) && Create(sys.db, c).1.Created?
    ensures Sound(sys)
    ensures var m := MemoryOf(Advance(sys, DealHand(server, c)), server);
            && c.roomId in m.store && m.store[c.roomId] < |m.objects|
            && m.objects[m.store[c.roomId]] == Runtime(c.state, Some(c.deadline))
  {
    SystemIsSound(sys, logs);
  }

  /** A player whose commit has been answered is told of success exactly if it was acknowledged, and the runtime moves
      on to the committed state exactly if this very commit took effect. */
  lemma AnsweredMove(sys: System, logs: Logs, id: HandlerId)
    requires SystemOk(sys, logs) && Enabled(sys, Proceed(id)) && Sound(sys)
    requires sys.handlers[id].job.Act? && sys.handlers[id].stage.Committed?
    ensures var h, next := sys.handlers[id], Advance(sys, Proceed(id));
            var ref, c, result := h.stage.ref, h.stage.input, h.stage.result;
            && next.handlers[id].stage.Over? && next.handlers[id].stage.reply.Some?
            && (next.handlers[id].stage.reply.value.Success? <==> result.Acked?)
            && (result.Acked? ==> next.handlers[id].stage.reply.value.ack == result.operation.ack)
            && ref < |MemoryOf(sys, h.server).objects| == |MemoryOf(next, h.server).objects|
            && MemoryOf(next, h.server).objects[ref]
               == (if result.Acked? && result.committed then Runtime(c.state, c.deadline)
                   else MemoryOf(sys, h.server).objects[ref])
  {
    assert RefOk(MemoryOf(sys, sys.handlers[id].server), sys.handlers[id].stage);
  }

  // ---- Timeouts act only when due ----

  /** The decision is the one the timeout was set for. */
  predicate DueFor(job: Job, hand: HandId, version: int, user: PlayerId)
    requires job.Expire?
  {
    && (job.expected.Some? ==> hand == job.expected.value.handId && version == job.expected.value.version
                               && user == job.expected.value.actorId)
    && (job.user.Some? ==> user == job.user.value)
  }

  predicate ActsWhenDue(h: Handler) {
    h.job.Expire? ==>
      match h.stage
      case Looking(_, q) => DueFor(h.job, q.handId, q.expectedVersion, q.userId)
      case Checking(_, q, _) => DueFor(h.job, q.handId, q.expectedVersion, q.userId)
      case Committing(_, c) => DueFor(h.job, c.handId, c.expectedVersion, c.actorUserId)
      case Committed(_, c, _) => DueFor(h.job, c.handId, c.expectedVersion, c.actorUserId)
      case _ => true
  }

  lemma DueStep(db: Db, m: Memory, h: Handler)
    requires MemorySound(m) && RefOk(m, h.stage) && ActsWhenDue(h)
    requires h.stage.Looking? ==>
               h.stage.request.handId == m.objects[h.stage.ref].state.handId
               && h.stage.request.expectedVersion == m.objects[h.stage.ref].state.version
    ensures ActsWhenDue(h.(stage := Next(db, m, h.job, h.stage).stage))
  {
  }

  lemma LookingAt(sys: System, logs: Logs, id: HandlerId)
    requires SystemOk(sys, logs) && Sound(sys) && id in sys.handlers && sys.handlers[id].stage.Looking?
    ensures var h := sys.handlers[id];
            var s := MemoryOf(sys, h.server).objects[h.stage.ref].state;
            h.stage.request.handId == s.handId && h.stage.request.expectedVersion == s.version
  {
    assert HandlerOk(logs, MemoryOf(sys, sys.handlers[id].server), sys.handlers[id]);
    assert Open(HandlerSeal, 0);
  }

  lemma DueKept(sys: System, logs: Logs, event: ServerEvent, id: HandlerId)
    requires SystemOk(sys, logs) && Enabled(sys, event) && Sound(sys) && id in Advance(sys, event).handlers
    requires id in sys.handlers ==> ActsWhenDue(sys.handlers[id])
    ensures ActsWhenDue(Advance(sys, event).handlers[id])
  {
    if event == Proceed(id) {
      if sys.handlers[id].stage.Looking? {
        LookingAt(sys, logs, id);
      }
      DueStep(sys.db, MemoryOf(sys, sys.handlers[id].server), sys.handlers[id]);
    }
  }

  /** Over all runs a timeout acts only on the decision it was set for: in that hand, at that version, for that
      player. */
  lemma {:induction false} TimeoutsAreDue(states: seq<System>, events: seq<ServerEvent>, k: nat, id: HandlerId)
    requires SystemRun(states, events) && k < |states| && id in states[k].handlers
    ensures ActsWhenDue(states[k].handlers[id])
  {
    if k > 0 {
      var logs := RunKeepsSystem(states, events, k - 1);
      var after := TakesKeeps(states[k - 1], logs, events[k - 1], states[k]);
      if id in states[k - 1].handlers {
        TimeoutsAreDue(states, events, k - 1, id);
      }
      DueKept(states[k - 1], logs, events[k - 1], id);
    }
  }

  // ---- What a player is told ----

  /** Whatever a player's handler answers with, or is about to, is on record under the action's id. */
  predicate AckStored(db: Db, h: Handler) {
    h.job.Act? ==>
      match h.stage
      case Committed(_, _, result) => result.Acked? ==> StoredAs(db, h.job.request, result.operation.ack)
      case Over(reply) => reply.Some? && reply.value.Success? ==> StoredAs(db, h.job.request, reply.value.ack)
      case _ => true
  }

  predicate StoredAs(db: Db, q: Request, ack: Ack) {
    && q.actionId in db.operations && db.operations[q.actionId].ack == ack
    && StandsFor(db.operations[q.actionId], q.roomId, q.handId, q.userId, q.payloadHash)
  }

  lemma NextStores(db: Db, m: Memory, h: Handler)
    requires MemorySound(m) && RefOk(m, h.stage) && AckStored(db, h) && !h.stage.Committing?
    ensures var o := Next(db, m, h.job, h.stage); AckStored(o.db, h.(stage := o.stage))
  {
    match h.stage {
      case Holding(ref) => assert !Held(m, h.job, ref).Over? || !AnswersSuccess(Held(m, h.job, ref));
      case Looking(ref, q) => assert !AnswersSuccess(Looked(db, m, h.job, ref, q));
      case _ =>
    }
  }

  predicate AnswersSuccess(stage: Stage) { stage.Over? && stage.reply.Some? && stage.reply.value.Success? }

  lemma CommitStores(db: Db, h: Handler, c: CommitInput)
    requires h.job.Act? ==> exists f, deadline, automatic :: c == CommitOf(h.job.request, f, deadline, automatic)
    ensures var (after, result) := Commit(db, c);
            forall ref :: AckStored(after, h.(stage := Committed(ref, c, result)))
  {
  }

  lemma StepStores(sys: System, logs: Logs, id: HandlerId)
    requires SystemOk(sys, logs) && Enabled(sys, Proceed(id)) && Sound(sys) && AckStored(sys.db, sys.handlers[id])
    ensures AckStored(Advance(sys, Proceed(id)).db, Advance(sys, Proceed(id)).handlers[id])
  {
    var h := sys.handlers[id];
    if h.stage.Committing? {
      var q, f, k := InputSource(sys, logs, id);
      CommitStores(sys.db, h, h.stage.input);
    } else {
      NextStores(sys.db, MemoryOf(sys, h.server), h);
    }
  }

  lemma StoredStays(db: Db, after: Db, h: Handler)
    requires AckStored(db, h) && OperationsKept(db, after)
    ensures AckStored(after, h)
  {
  }

  /** A player who has been told of success, before or after crashes and on whatever server, has the action on record
      with exactly that acknowledgement. */
  lemma {:induction false} SuccessIsOnRecord(states: seq<System>, events: seq<ServerEvent>, k: nat, id: HandlerId)
    requires SystemRun(states, events) && k < |states| && id in states[k].handlers
    ensures AckStored(states[k].db, states[k].handlers[id])
  {
    if k > 0 {
      var logs := RunKeepsSystem(states, events, k - 1);
      var event := events[k - 1];
      var after := TakesKeeps(states[k - 1], logs, event, states[k]);
      if id in states[k - 1].handlers {
        SuccessIsOnRecord(states, events, k - 1, id);
        if event == Proceed(id) {
          StepStores(states[k - 1], logs, id);
        } else {
          StoredStays(states[k - 1].db, states[k].db, states[k - 1].handlers[id]);
        }
      }
    }
  }

  /** An action on record is in the tables of its hand: the rows of the acknowledged version are exactly the
      acknowledged events, the first of them carries the action's id, and there is a snapshot of that version. */
  predicate InTables(db: Db, id: ActionId, o: Operation) {
    var rows := Filter(EventsOf(db, o.handId), AtVersion(o.ack.version));
    && |rows| == |o.ack.events| > 0
    && (forall i | 0 <= i < |rows| :: rows[i].event == o.ack.events[i])
    && rows[0].actionId == Some(id)
    && exists s :: s in Filter(db.snapshots, OfHand(o.roomId, o.handId)) && s.version == o.ack.version
  }

  lemma EntryInTables(db: Db, logs: Logs, id: ActionId, o: Operation, j: nat)
    requires DbOk(db, logs) && o.handId in logs && logs[o.handId].room == o.roomId
    requires EnteredAt(logs[o.handId], j, id, o)
    ensures InTables(db, id, o)
  {
    var log := logs[o.handId];
    var d := KeptLog(db, logs, o.handId);
    LogShaped(log, d);
    RowsAtVersion(log, j);
    assert ShapedAt(log, j);
    EntrySnapshot(log, j);
  }

  lemma EntrySnapshot(log: Log, j: nat)
    requires j < |log.entries| && log.start.version == 0
    ensures exists s :: s in SnapshotRows(log, |log.entries|) && s.version == log.entries[j].state.version
  {
    SnapshotAt(log, |log.entries|, j + 1);
    assert SnapshotRows(log, |log.entries|)[j + 1] in SnapshotRows(log, |log.entries|);
  }

  /** So every success a player is told of has taken effect, and is never lost. */
  lemma SuccessTookEffect(states: seq<System>, events: seq<ServerEvent>, j: nat, k: nat, id: HandlerId)
    requires SystemRun(states, events) && j <= k < |states| && id in states[j].handlers
    requires var h := states[j].handlers[id]; h.job.Act? && AnswersSuccess(h.stage)
    ensures var q := states[j].handlers[id].job.request;
            && StoredAs(states[k].db, q, states[j].handlers[id].stage.reply.value.ack)
            && InTables(states[k].db, q.actionId, states[k].db.operations[q.actionId])
  {
    SuccessIsOnRecord(states, events, j, id);
    OperationsStay(states, events, j, k);
    var q := states[j].handlers[id].job.request;
    var logs := RunKeepsSystem(states, events, k);
    assert OpKnown(logs, q.actionId, states[k].db.operations[q.actionId]) by {
      assert Open(TablesSeal, 0);
    }
    var o := states[k].db.operations[q.actionId];
    var i: nat :| EnteredAt(logs[o.handId], i, q.actionId, o);
    EntryInTables(states[k].db, logs, q.actionId, o, i);
  }

  lemma NewestGrows(states: seq<System>, events: seq<ServerEvent>, j: nat, k: nat, logs: Logs, hand: HandId)
    returns (after: Logs)
    requires SystemRun(states, events) && j <= k < |states| && SystemOk(states[j], logs) && hand in logs
    ensures SystemOk(states[k], after) && hand in after && after[hand].room == logs[hand].room
    ensures LatestOfHand(states[j].db, logs[hand].room, hand).Some?
            && LatestOfHand(states[k].db, logs[hand].room, hand).Some?
    ensures LatestOfHand(states[j].db, logs[hand].room, hand).value.version
            <= LatestOfHand(states[k].db, logs[hand].room, hand).value.version
  {
    after := RunGrows(states, events, j, k, logs);
    var n := |logs[hand].entries|;
    assert Continues(logs[hand], after[hand]);
    StateKept(logs[hand], after[hand], n);
    BehindMeansOlder(states[j].db, logs, hand, n);
    BehindMeansOlder(states[k].db, after, hand, n);
    var d := KeptLog(states[j].db, logs, hand);
    LatestIsLast(states[j].db, logs[hand], d);
    var e := KeptLog(states[k].db, after, hand);
    LatestIsLast(states[k].db, after[hand], e);
  }

  /** A request for a version that its hand has already left can never take effect: whenever the commit it leads to
      runs, on whatever server and out of whatever memory, it writes nothing, and it is not acknowledged unless its id
      was put on record by another commit. */
  lemma StaleNeverTakes(states: seq<System>, events: seq<ServerEvent>, j: nat, k: nat, id: HandlerId)
    requires SystemRun(states, events) && j <= k < |states|
    requires id in states[k].handlers && states[k].handlers[id].stage.Committing?
    requires var c := states[k].handlers[id].stage.input;
             var latest := LatestOfHand(states[j].db, c.roomId, c.handId);
             latest.Some? && latest.value.version > c.expectedVersion
    ensures var c := states[k].handlers[id].stage.input;
            && Commit(states[k].db, c).0 == states[k].db
            && !MoveTaken(Commit(states[k].db, c).1)
            && (c.actionId !in states[k].db.operations ==> Commit(states[k].db, c).1 == StaleSnapshot)
  {
    var c := states[k].handlers[id].stage.input;
    var logs := RunKeepsSystem(states, events, j);
    LatestInLogs(states[j].db, logs, c.roomId, c.handId);
    var after := NewestGrows(states, events, j, k, logs, c.handId);
    StaleIffMovedOn(states[k], after, id);
  }

  lemma LatestInLogs(db: Db, logs: Logs, room: RoomId, hand: HandId)
    requires DbOk(db, logs) && LatestOfHand(db, room, hand).Some?
    ensures hand in logs && logs[hand].room == room
  {
    assert Open(DbSeal, 0);
    var rows := Filter(db.snapshots, OfHand(room, hand));
    assert |rows| > 0;
    assert rows[0] in db.snapshots;
  }

  /** A runtime in memory equals the one snapshot with its hand and version. */
  lemma CachedIsSnapshot(sys: System, logs: Logs, server: ServerId, ref: Ref)
    requires SystemOk(sys, logs) && server in sys.servers && ref < |sys.servers[server].objects|
    ensures var s := sys.servers[server].objects[ref].state;
            var rows := Filter(sys.db.snapshots, OfHand(s.tableId, s.handId));
            && Snapshot(s.tableId, s.handId, s.version, s) in rows
            && forall i | 0 <= i < |rows| && rows[i].version == s.version :: rows[i].state == s
  {
    var s := sys.servers[server].objects[ref].state;
    assert ObjectKnown(logs, sys.servers[server].objects[ref]) by {
      assert MemoryOk(logs, sys.servers[server]);
      assert Open(MemorySeal, 0);
    }
    var log := logs[s.handId];
    var d := KeptLog(sys.db, logs, s.handId);
    var k: nat :| k <= |log.entries| && s == StateAt(log, k);
    KnownInRows(log, d, k, s);
  }

  lemma KnownInRows(log: Log, d: Deal, k: nat, s: State)
    requires LogOk(log, d) && k <= |log.entries| && s == StateAt(log, k) && s.handId == log.hand
    ensures var rows := SnapshotRows(log, |log.entries|);
            && Snapshot(log.room, log.hand, s.version, s) in rows
            && forall i | 0 <= i < |rows| && rows[i].version == s.version :: rows[i].state == s
  {
    LogShaped(log, d);
    var n := |log.entries|;
    SnapshotAt(log, n, k);
    assert SnapshotRows(log, n)[k] == Snapshot(log.room, log.hand, s.version, s);
    forall i: nat | i <= n && SnapshotRows(log, n)[i].version == s.version ensures SnapshotRows(log, n)[i].state == s {
      SnapshotAt(log, n, i);
      if i < k {
        VersionsGrow(log, i, k);
      } else if k < i {
        VersionsGrow(log, k, i);
      }
    }
  }
}

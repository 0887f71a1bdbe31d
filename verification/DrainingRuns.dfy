/** The drained room that nothing was wrong with: from every state that servers can reach, one more recovery, or one
    more timeout, and one fold at the wrong moment drain a room whose hand is being played. */
module DrainingRuns {
  import opened BettingInvariant
  import opened Board
  import opened DurableLog
  import opened DurableRuns
  import opened Game
  import opened Gateway
  import opened HandEvents
  import opened HandLogs
  import opened HandRecords
  import opened LegalMoves
  import opened Numbers
  import opened Recovery
  import opened Reducer
  import opened Sealing
  import opened Sequences
  import opened ServerSteps
  import opened Table
  import opened TableServers
  import opened Wrappers

  // ---- Extending a run ----

  /** A stretch of steps that only start handlers and let them proceed: no crash, no deal, nothing forgotten. */
  ghost predicate Stretch(states: seq<System>, events: seq<ServerEvent>) {
    && |states| == |events| + 1
    && forall k {:trigger events[k]} | 0 <= k < |events| ::
         Takes(states[k], events[k], states[k + 1]) && (events[k].Proceed? || events[k].Spawn?)
  }

  ghost predicate Path(from: System, sys: System, states: seq<System>, events: seq<ServerEvent>) {
    Stretch(states, events) && states[0] == from && states[|events|] == sys
  }

  ghost predicate InOrder(sys: System) { exists logs :: SystemOk(sys, logs) }

  /** A system in order, reached from another one. */
  ghost predicate At(from: System, sys: System) {
    forall k {:trigger Open(AtSeal, k)} :: Open(AtSeal, k) ==>
      InOrder(sys) && exists states, events :: Path(from, sys, states, events)
  }

  lemma AtLogs(from: System, sys: System) returns (logs: Logs)
    requires At(from, sys)
    ensures SystemOk(sys, logs)
  {
    assert Open(AtSeal, 0);
    logs :| SystemOk(sys, logs);
  }

  lemma AtItself(sys: System, logs: Logs)
    requires SystemOk(sys, logs)
    ensures At(sys, sys)
  {
    assert Path(sys, sys, [sys], []);
  }

  lemma PathOn(from: System, sys: System, next: System, event: ServerEvent, states: seq<System>,
               events: seq<ServerEvent>)
    requires Path(from, sys, states, events) && Takes(sys, event, next) && (event.Proceed? || event.Spawn?)
    ensures Path(from, next, states + [next], events + [event])
  {
    var more, extra := states + [next], events + [event];
    forall k {:trigger extra[k]} | 0 <= k < |extra|
      ensures Takes(more[k], extra[k], more[k + 1]) && (extra[k].Proceed? || extra[k].Spawn?)
    {
      if k < |events| {
        assert extra[k] == events[k];
      }
    }
  }

  lemma AtNext(from: System, sys: System, event: ServerEvent) returns (next: System)
    requires At(from, sys) && Enabled(sys, event) && (event.Proceed? || event.Spawn?)
    ensures Sound(sys) && next == Advance(sys, event) && At(from, next)
  {
    var logs := AtLogs(from, sys);
    var after := AdvanceKeeps(sys, logs, event);
    next := Advance(sys, event);
    assert Takes(sys, event, next);
    assert exists states, events :: Path(from, next, states, events) by {
      assert Open(AtSeal, 0);
      var states, events :| Path(from, sys, states, events);
      PathOn(from, sys, next, event, states, events);
    }
    assert InOrder(next);
  }

  /** The run and the stretch after it are one run. */
  lemma RunReaches(states: seq<System>, events: seq<ServerEvent>, sys: System)
    returns (more: seq<System>, extra: seq<ServerEvent>)
    requires SystemRun(states, events) && At(states[|events|], sys)
    ensures |more| == |extra| && SystemRun(states + more, events + extra)
    ensures (states + more)[|events + extra|] == sys
    ensures forall e | e in extra :: e.Proceed? || e.Spawn?
  {
    assert Open(AtSeal, 0);
    var path, steps :| Path(states[|events|], sys, path, steps);
    more, extra := path[1..], steps;
    var all, acts := states + more, events + extra;
    forall k {:trigger acts[k]} | 0 <= k < |acts| ensures Takes(all[k], acts[k], all[k + 1]) {
      if k < |events| {
        assert acts[k] == events[k];
      } else {
        assert acts[k] == steps[k - |events|];
        assert all[k] == path[k - |events|];
      }
    }
  }

  // ---- Fresh names ----

  lemma {:induction false} Beyond(s: set<nat>) returns (n: nat)
    ensures forall m | m in s :: m < n
  {
    n := 0;
    if s != {} {
      var m :| m in s;
      var rest := Beyond(s - {m});
      n := Max(rest, m + 1);
      forall k | k in s ensures k < n {
        assert k == m || k in s - {m};
      }
    }
  }

  function Length(a: ActionId): nat { if a.Submitted? then |a.id| else 0 }

  lemma NewAction(db: Db) returns (id: ActionId)
    ensures id.Submitted? && id !in db.operations
  {
    var lengths := set a | a in db.operations :: Length(a);
    var n := Beyond(lengths);
    id := Submitted(seq(n, i => 'a'));
    assert Length(id) == n;
    assert forall a | a in db.operations :: Length(a) in lengths;
  }

  // ---- Handlers in a stretch ----

  const Blank := Memory([], map[])

  /** No handler runs on the server and it remembers nothing. */
  predicate Idle(sys: System, server: ServerId) {
    && (forall id | id in sys.handlers :: sys.handlers[id].server != server)
    && MemoryOf(sys, server) == Blank
  }

  lemma NewServer(sys: System) returns (server: ServerId, id: HandlerId)
    ensures Idle(sys, server) && id !in sys.handlers
  {
    var used := sys.servers.Keys + (set h | h in sys.handlers :: sys.handlers[h].server);
    server := Beyond(used);
    id := Beyond(sys.handlers.Keys);
    forall h | h in sys.handlers ensures sys.handlers[h].server != server {
      assert sys.handlers[h].server in used;
    }
  }

  /** A handler of its own server, and all else as it was. */
  ghost predicate Beside(sys: System, next: System, id: HandlerId, h: Handler, m: Memory) {
    && id !in sys.handlers && Idle(sys, h.server)
    && next.handlers == sys.handlers[id := h]
    && MemoryOf(next, h.server) == m
    && forall server | server != h.server :: MemoryOf(next, server) == MemoryOf(sys, server)
  }

  /** The new handler moves on. */
  lemma Step(from: System, base: System, sys: System, id: HandlerId, h: Handler, m: Memory) returns (next: System)
    requires At(from, sys) && Beside(base, sys, id, h, m) && !h.stage.Over?
    requires MemorySound(m) && RefOk(m, h.stage)
    ensures At(from, next)
    ensures var o := Next(sys.db, m, h.job, h.stage);
            next.db == o.db && Beside(base, next, id, h.(stage := o.stage), o.memory)
  {
    assert LockFree(sys, h.server, RoomOf(h.job)) || Locked(h);
    next := AtNext(from, sys, Proceed(id));
    assert next.handlers == base.handlers[id := h.(stage := Next(sys.db, m, h.job, h.stage).stage)];
  }

  lemma Start(from: System, sys: System, id: HandlerId, server: ServerId, job: Job) returns (next: System)
    requires At(from, sys) && id !in sys.handlers && Idle(sys, server)
    requires job.Act? ==> job.request.actionId.Submitted?
    ensures At(from, next) && next.db == sys.db
    ensures Beside(sys, next, id, Handler(server, job, FirstStage(job)), Blank)
  {
    next := AtNext(from, sys, Spawn(id, server, job));
  }

  // ---- The two reads ----

  /** The room's newest snapshot, of a hand being played. */
  predicate Playing(db: Db, room: RoomId, s: Snapshot) {
    && LatestOfRoom(db, room) == Some(s) && LatestOfHand(db, room, s.handId) == Some(s)
    && s.state.phase != Complete
  }

  /** What the record tells about such a snapshot. */
  lemma PlayedByEngine(db: Db, logs: Logs, room: RoomId)
    requires DbOk(db, logs) && LatestOfRoom(db, room).Some?
    ensures var s := LatestOfRoom(db, room).value;
            && s.roomId == room && LatestOfHand(db, room, s.handId) == Some(s)
            && s.handId in logs && s.state == LastState(logs[s.handId])
            && s.state.handId == s.handId && s.state.version == s.version && s.state.tableId == room
            && exists d :: InGame(s.state, d) && NamesOk(s.state.players)
  {
    var s := LatestOfRoom(db, room).value;
    LatestKnown(db, logs, room);
    LastOfFilter(db.snapshots, room, s.handId);
    var d := KeptLog(db, logs, s.handId);
    LastSnapshot(logs[s.handId], d);
    LatestIsLast(db, logs[s.handId], d);
    LogPlaysOn(logs[s.handId], d, |logs[s.handId].entries|);
    PlaysOnFacts(logs[s.handId].start, s.state, d);
  }

  lemma FindsSnapshot(db: Db, logs: Logs, room: RoomId, s: Snapshot)
    requires DbOk(db, logs) && LatestOfRoom(db, room) == Some(s)
    ensures ReadLatest(db, room).Fit? && ReadLatest(db, room).snapshot == s
  {
    FoundKnown(db, logs, room);
  }

  lemma AtTables(from: System, sys: System) returns (logs: Logs)
    requires At(from, sys)
    ensures DbOk(sys.db, logs)
  {
    logs := AtLogs(from, sys);
  }

  /** A handler of a server that does not know the room reads the snapshot. */
  lemma ReadsSnapshot(from: System, base: System, sys: System, id: HandlerId, h: Handler, s: Snapshot)
    returns (next: System, hand: HandRow)
    requires At(from, sys) && Beside(base, sys, id, h, Blank) && h.stage.Recovering?
    requires LatestOfRoom(sys.db, RoomOf(h.job)) == Some(s)
    ensures At(from, next) && next.db == sys.db
    ensures Beside(base, next, id, h.(stage := SnapshotRead(s, hand)), Blank)
  {
    var first := Step(from, base, sys, id, h, Blank);
    var logs := AtTables(from, first);
    FindsSnapshot(first.db, logs, RoomOf(h.job), s);
    next := Step(from, base, first, id, h.(stage := Missed), Blank);
    hand := ReadLatest(sys.db, RoomOf(h.job)).hand;
  }

  lemma EventsRead(from: System, base: System, sys: System, id: HandlerId, h: Handler)
    requires At(from, sys) && Beside(base, sys, id, h, Blank) && h.stage.SnapshotRead?
    ensures var s := h.stage.snapshot;
            HistoryOk(s, EventsOf(sys.db, s.handId)) <==> LatestOfHand(sys.db, RoomOf(h.job), s.handId) == Some(s)
  {
    var logs := AtLogs(from, sys);
    RecoveryOutcome(sys, logs, id);
    assert sys.handlers[id] == h;
  }

  /** With the snapshot still the newest, the handler gets the runtime. */
  lemma ReadsEvents(from: System, base: System, sys: System, id: HandlerId, h: Handler)
    returns (next: System, m: Memory)
    requires At(from, sys) && Beside(base, sys, id, h, Blank) && h.stage.SnapshotRead?
    requires var s := h.stage.snapshot; LatestOfHand(sys.db, RoomOf(h.job), s.handId) == Some(s)
    ensures At(from, next) && next.db == sys.db && Beside(base, next, id, h.(stage := Holding(0)), m)
    ensures m == Memory([Restored(h.stage.snapshot, h.stage.hand)], map[RoomOf(h.job) := 0])
  {
    EventsRead(from, base, sys, id, h);
    next := Step(from, base, sys, id, h, Blank);
    m := Memory([Restored(h.stage.snapshot, h.stage.hand)], map[RoomOf(h.job) := 0]);
  }

  // ---- A fold from a server that has just started ----

  function FoldOf(s: Snapshot, room: RoomId, action: ActionId): Request {
    Request(action, room, s.handId, s.state.actorId, "", s.version, Fold)
  }

  lemma FoldDecided(db: Db, logs: Logs, room: RoomId, s: Snapshot, action: ActionId)
    requires DbOk(db, logs) && Playing(db, room, s)
    ensures Playable(s.state) && PlayerMove(s.state, FoldOf(s, room, action), 0).Ok?
    ensures var c := PlayerMove(s.state, FoldOf(s, room, action), 0).value;
            c.actionId == action && c.roomId == room && c.handId == s.handId && c.expectedVersion == s.version
  {
    PlayedByEngine(db, logs, room);
    var d :| InGame(s.state, d) && NamesOk(s.state.players);
    InGameFacts(s.state, d);
    InGamePlayable(s.state, d);
    LegalActionsExact(s.state, Fold);
    VersionChecked(s.state);
    DecideFits(s.state, FoldOf(s, room, action), d);
  }

  lemma VersionChecked(s: State)
    requires Playable(s) && Accepts(s, Fold)
    ensures Apply(s, Command(s.actorId, Some(s.version), Fold)).Accepted?
  {
  }

  /** A new handler with a new action passes the lookups and the lock. */
  lemma FoldEnters(from: System, base: System, room: RoomId, s: Snapshot, action: ActionId)
    returns (next: System, id: HandlerId, h: Handler)
    requires At(from, base) && room !in base.db.draining && action.Submitted? && action !in base.db.operations
    ensures At(from, next) && next.db == base.db && Beside(base, next, id, h, Blank)
    ensures h.job == Job.Act(FoldOf(s, room, action), 0) && h.stage == Recovering
  {
    var server;
    server, id := NewServer(base);
    h := Handler(server, Job.Act(FoldOf(s, room, action), 0), Recovering);
    var a := Start(from, base, id, server, h.job);
    var b := Step(from, base, a, id, h.(stage := Arrived), Blank);
    var c := Step(from, base, b, id, h.(stage := Queued), Blank);
    next := Step(from, base, c, id, h.(stage := Admitted), Blank);
  }

  /** The hand has a newer snapshot, nothing was drained and no timeout recorded. */
  predicate MovedPast(db: Db, later: Db, room: RoomId, s: Snapshot) {
    && later.draining == db.draining
    && LatestOfHand(later, room, s.handId).Some? && LatestOfHand(later, room, s.handId).value.version > s.version
    && forall a | a in later.operations && a.ServerTimeout? :: a in db.operations
  }

  lemma FoldAppends(from: System, sys: System, id: HandlerId, s: Snapshot)
    requires At(from, sys) && id in sys.handlers && sys.handlers[id].stage.Committing?
    requires var c := sys.handlers[id].stage.input;
             && c.actionId !in sys.db.operations && c.actionId.Submitted?
             && LatestOfHand(sys.db, c.roomId, c.handId) == Some(s) && c.expectedVersion == s.version
             && s.handId == c.handId
    ensures var c := sys.handlers[id].stage.input; MovedPast(sys.db, Commit(sys.db, c).0, c.roomId, s)
  {
    var c := sys.handlers[id].stage.input;
    var logs := AtLogs(from, sys);
    StaleIffMovedOn(sys, logs, id);
    var q, f, k := InputSource(sys, logs, id);
    var d := NewCommit(sys.db, logs, sys.handlers[id].job, q, f, k, c);
    LogPlaysOn(logs[q.handId], d, k);
    DecidedStep(logs[q.handId].start, LastState(logs[q.handId]), Entry(f.state, f.events, q.actionId), d);
    AppendedIsNewest(sys.db, c, s);
  }

  lemma AppendedIsNewest(db: Db, c: CommitInput, s: Snapshot)
    requires LatestOfHand(db, c.roomId, c.handId) == Some(s) && c.newVersion > s.version
    ensures LatestOfHand(Appended(db, c), c.roomId, c.handId)
            == Some(Snapshot(c.roomId, c.handId, c.newVersion, c.state))
  {
    var row := Snapshot(c.roomId, c.handId, c.newVersion, c.state);
    FilterAppend(db.snapshots, row, OfHand(c.roomId, c.handId));
    NewestAppend(Filter(db.snapshots, OfHand(c.roomId, c.handId)), row);
  }

  lemma FoldHeld(db: Db, logs: Logs, room: RoomId, s: Snapshot, action: ActionId, m: Memory)
    returns (c: CommitInput)
    requires DbOk(db, logs) && Playing(db, room, s)
    requires |m.objects| == 1 && m.objects[0].state == s.state && m.store == map[room := 0]
    ensures MemorySound(m) && Held(m, Job.Act(FoldOf(s, room, action), 0), 0) == Committing(0, c)
    ensures c.actionId == action && c.roomId == room && c.handId == s.handId && c.expectedVersion == s.version
  {
    FoldDecided(db, logs, room, s, action);
    c := PlayerMove(s.state, FoldOf(s, room, action), 0).value;
    MoveHeld(m, s.state, FoldOf(s, room, action), c);
    assert forall other | other in m.store :: m.store[other] == 0;
  }

  lemma MoveHeld(m: Memory, s: State, q: Request, c: CommitInput)
    requires Playable(s) && |m.objects| == 1 && m.objects[0].state == s && PlayerMove(s, q, 0) == Ok(c)
    requires forall other | other in m.store :: m.store[other] == 0
    ensures MemorySound(m) && Held(m, Job.Act(q, 0), 0) == Committing(0, c)
  {
  }

  /** The handler decides the fold and commits it. */
  lemma FoldCommits(from: System, base: System, sys: System, id: HandlerId, h: Handler, m: Memory, room: RoomId,
                    s: Snapshot, action: ActionId)
    returns (next: System, last: Handler)
    requires At(from, sys) && Beside(base, sys, id, h, m) && h.stage == Holding(0)
    requires h.job == Job.Act(FoldOf(s, room, action), 0) && action !in sys.db.operations && action.Submitted?
    requires Playing(sys.db, room, s) && |m.objects| == 1 && m.objects[0].state == s.state && m.store == map[room := 0]
    ensures At(from, next) && Beside(base, next, id, last, m) && last.server == h.server
    ensures MovedPast(sys.db, next.db, room, s)
  {
    var logs := AtTables(from, sys);
    var c := FoldHeld(sys.db, logs, room, s, action, m);
    var a := Step(from, base, sys, id, h, m);
    FoldAppends(from, a, id, s);
    next := Step(from, base, a, id, h.(stage := Committing(0, c)), m);
    last := h.(stage := Committed(0, c, Commit(a.db, c).1));
  }

  /** A fold by the player to act, on a server that has just started, goes through and is committed. */
  lemma Folds(from: System, base: System, room: RoomId, s: Snapshot)
    returns (next: System, id: HandlerId, h: Handler, m: Memory)
    requires At(from, base) && Playing(base.db, room, s) && room !in base.db.draining
    ensures At(from, next) && Beside(base, next, id, h, m) && MovedPast(base.db, next.db, room, s)
  {
    var action := NewAction(base.db);
    var a, h0 : Handler;
    a, id, h0 := FoldEnters(from, base, room, s, action);
    var b, hand := ReadsSnapshot(from, base, a, id, h0, s);
    var c : System;
    c, m := ReadsEvents(from, base, b, id, h0.(stage := SnapshotRead(s, hand)));
    next, h := FoldCommits(from, base, c, id, h0.(stage := Holding(0)), m, room, s, action);
  }

  /** A handler that others do not disturb is still beside the first system. */
  lemma StillBeside(base: System, sys: System, next: System, id: HandlerId, h: Handler, m: Memory, other: HandlerId,
                    g: Handler, n: Memory) returns (now: System)
    requires Beside(base, sys, id, h, m) && Beside(sys, next, other, g, n)
    ensures id !in now.handlers && Idle(now, h.server) && now.db == next.db && Beside(now, next, id, h, m)
  {
    assert sys.handlers[id] == h;
    now := System(next.db, next.servers - {h.server}, next.handlers - {id});
    assert next.handlers == now.handlers[id := h];
  }

  // ---- The overtaken recovery ----

  lemma PlayingLatest(states: seq<System>, events: seq<ServerEvent>, room: RoomId) returns (s: Snapshot)
    requires SystemRun(states, events) && LiveAndOpen(states[|events|].db, room)
    ensures At(states[|events|], states[|events|]) && Playing(states[|events|].db, room, s)
  {
    var logs := RunKeepsSystem(states, events, |events|);
    AtItself(states[|events|], logs);
    PlayedByEngine(states[|events|].db, logs, room);
    s := LatestOfRoom(states[|events|].db, room).value;
  }

  /** The room's hand is being played, and the room is not being drained. */
  predicate LiveAndOpen(db: Db, room: RoomId) {
    LatestOfRoom(db, room).Some? && LatestOfRoom(db, room).value.state.phase != Complete && room !in db.draining
  }

  /** From every state that can be reached, a room with a hand being played can be drained although nothing is wrong
      with it: a starting server reads the snapshot, the player to act folds, and the server reads the events. */
  lemma RecoveryCanDrain(states: seq<System>, events: seq<ServerEvent>, room: RoomId)
    returns (more: seq<System>, extra: seq<ServerEvent>)
    requires SystemRun(states, events) && LiveAndOpen(states[|events|].db, room)
    ensures |more| == |extra| && SystemRun(states + more, events + extra)
    ensures forall e | e in extra :: e.Proceed? || e.Spawn?
    ensures room in (states + more)[|events + extra|].db.draining
  {
    var from := states[|events|];
    var s := PlayingLatest(states, events, room);
    var server, id := NewServer(from);
    var h := Handler(server, Peek(room, true), Recovering);
    var a := Start(from, from, id, server, h.job);
    var b, hand := ReadsSnapshot(from, from, a, id, h, s);
    var c, other, g, m := Folds(from, b, room, s);
    var base := StillBeside(from, b, c, id, h.(stage := SnapshotRead(s, hand)), Blank, other, g, m);
    EventsRead(from, base, c, id, h.(stage := SnapshotRead(s, hand)));
    var d := Step(from, base, c, id, h.(stage := SnapshotRead(s, hand)), Blank);
    var e := Step(from, base, d, id, h.(stage := Doomed), Blank);
    more, extra := RunReaches(states, events, e);
  }

  /** Such states are reached: by dealing any hand that can be played. */
  lemma DealtRoomIsOpen(c: CreateInput, d: Deal) returns (states: seq<System>, events: seq<ServerEvent>)
    requires StartOk(c.roomId, c.handId, c.state, d) && c.seatStacks == StacksOf(c.state.players)
    ensures SystemRun(states, events) && events == [DealHand(0, c)]
    ensures LiveAndOpen(states[1].db, c.roomId) && LatestOfRoom(states[1].db, c.roomId).value.state == c.state
  {
    var first := System(Db([], [], [], map[], map[], {}), map[], map[]);
    NothingYet(first);
    StacksKept(c.state, d);
    var event := DealHand(0, c);
    var after := AdvanceKeeps(first, map[], event);
    states, events := [first, Advance(first, event)], [event];
    assert Takes(first, event, states[1]);
    FilterAppend([], Snapshot(c.roomId, c.handId, 0, c.state), OfRoom(c.roomId));
    assert states[1].db.snapshots == [] + [Snapshot(c.roomId, c.handId, 0, c.state)];
  }

  // ---- The overtaken timeout ----

  function TimeoutOf(s: Snapshot, room: RoomId): Job { Expire(room, Some(s.state.actorId), None, 0, true) }

  lemma TimeoutUnused(from: System, sys: System, room: RoomId, s: Snapshot)
    requires At(from, sys) && Playing(sys.db, room, s)
    ensures TimeoutRequest(room, s.state).actionId !in sys.db.operations
  {
    var logs := AtLogs(from, sys);
    PlayedByEngine(sys.db, logs, room);
    var id := ServerTimeout(s.handId, s.version);
    if id in sys.db.operations {
      assert OpsKnown(sys.db, logs) by {
        assert Open(TablesSeal, 0);
      }
      var j := RecordedTimeout(sys.db, logs, id);
      SameVersionSameState(sys.db, logs, s.handId, j, |logs[s.handId].entries|);
    }
  }

  lemma TimeoutDecided(db: Db, logs: Logs, room: RoomId, s: Snapshot)
    requires DbOk(db, logs) && Playing(db, room, s)
    ensures Playable(s.state) && Decide(s.state, TimeoutRequest(room, s.state)).Ok?
    ensures var q := TimeoutRequest(room, s.state);
            q.roomId == room && q.handId == s.handId && q.expectedVersion == s.version && q.actionId.ServerTimeout?
  {
    PlayedByEngine(db, logs, room);
    var d :| InGame(s.state, d) && NamesOk(s.state.players);
    InGameFacts(s.state, d);
    InGamePlayable(s.state, d);
    var q := TimeoutRequest(room, s.state);
    LegalActionsExact(s.state, q.action);
    DecideFits(s.state, q, d);
  }

  /** A timeout of a server that has just started comes up to its commit. */
  lemma TimeoutDecides(from: System, room: RoomId, s: Snapshot)
    returns (next: System, id: HandlerId, h: Handler, m: Memory)
    requires At(from, from) && Playing(from.db, room, s) && room !in from.db.draining
    ensures At(from, next) && next.db == from.db && Beside(from, next, id, h, m)
    ensures h.job == TimeoutOf(s, room) && h.stage.Committing? && h.stage.ref < |m.objects| && MemorySound(m)
    ensures AwaitsCommit(from.db, room, s, h.stage.input)
  {
    var server;
    server, id := NewServer(from);
    var h0 := Handler(server, TimeoutOf(s, room), Queued);
    var a := Start(from, from, id, server, h0.job);
    var b := Step(from, from, a, id, h0, Blank);
    var c, hand := ReadsSnapshot(from, from, b, id, h0.(stage := Recovering), s);
    var d : System;
    d, m := ReadsEvents(from, from, c, id, h0.(stage := SnapshotRead(s, hand)));
    next, h := TimeoutLooks(from, d, id, h0.(stage := Holding(0)), m, room, s);
  }

  lemma TimeoutLooks(from: System, sys: System, id: HandlerId, h: Handler, m: Memory, room: RoomId, s: Snapshot)
    returns (next: System, last: Handler)
    requires At(from, sys) && Beside(from, sys, id, h, m) && sys.db == from.db && h.stage == Holding(0)
    requires h.job == TimeoutOf(s, room) && Playing(from.db, room, s) && room !in from.db.draining
    requires |m.objects| == 1 && m.objects[0].state == s.state && m.store == map[room := 0]
    ensures At(from, next) && next.db == from.db && Beside(from, next, id, last, m) && MemorySound(m)
    ensures exists c :: last == h.(stage := Committing(0, c)) && AwaitsCommit(from.db, room, s, c)
  {
    var logs := AtTables(from, sys);
    TimeoutDecided(sys.db, logs, room, s);
    TimeoutUnused(from, sys, room, s);
    var q := TimeoutRequest(room, s.state);
    var f := Decide(s.state, q).value;
    TimeoutHeld(m, room, s);
    RereadSame(room, s.state);
    TimeoutLooked(sys.db, m, room, s, q, f);
    next := TimeoutChecks(from, sys, id, h, m, q, f);
    last := h.(stage := Committing(0, CommitOf(q, f, 0, true)));
  }

  lemma TimeoutHeld(m: Memory, room: RoomId, s: Snapshot)
    requires Playable(s.state) && s.state.phase != Complete
    requires |m.objects| == 1 && m.objects[0].state == s.state && m.store == map[room := 0]
    ensures MemorySound(m) && Held(m, TimeoutOf(s, room), 0) == Looking(0, TimeoutRequest(room, s.state))
  {
  }

  lemma TimeoutLooked(db: Db, m: Memory, room: RoomId, s: Snapshot, q: Request, f: Finalized)
    requires Playable(s.state) && MemorySound(m) && |m.objects| == 1 && m.objects[0].state == s.state
    requires q.actionId !in db.operations && Reread(q, s.state) == q && Decide(s.state, q) == Ok(f)
    ensures Looked(db, m, TimeoutOf(s, room), 0, q) == Checking(0, q, f)
  {
  }

  /** A new timeout decided on the newest snapshot. */
  predicate AwaitsCommit(db: Db, room: RoomId, s: Snapshot, c: CommitInput) {
    && c.actionId.ServerTimeout? && c.actionId !in db.operations
    && c.roomId == room && c.handId == s.handId && c.expectedVersion == s.version
  }

  lemma TimeoutChecks(from: System, sys: System, id: HandlerId, h: Handler, m: Memory, q: Request, f: Finalized)
    returns (next: System)
    requires At(from, sys) && Beside(from, sys, id, h, m) && h.stage == Holding(0)
    requires h.job.Expire? && h.job.deadline == 0 && RoomOf(h.job) !in sys.db.draining
    requires MemorySound(m) && |m.objects| == 1
    requires Held(m, h.job, 0) == Looking(0, q) && Looked(sys.db, m, h.job, 0, q) == Checking(0, q, f)
    ensures At(from, next) && next.db == sys.db
    ensures Beside(from, next, id, h.(stage := Committing(0, CommitOf(q, f, 0, true))), m)
  {
    var a := Step(from, from, sys, id, h, m);
    var b := Step(from, from, a, id, h.(stage := Looking(0, q)), m);
    next := Step(from, from, b, id, h.(stage := Checking(0, q, f)), m);
  }

  /** So can a timeout that is decided before the fold and commits after it. */
  lemma TimeoutCanDrain(states: seq<System>, events: seq<ServerEvent>, room: RoomId)
    returns (more: seq<System>, extra: seq<ServerEvent>)
    requires SystemRun(states, events) && LiveAndOpen(states[|events|].db, room)
    ensures |more| == |extra| && SystemRun(states + more, events + extra)
    ensures forall e | e in extra :: e.Proceed? || e.Spawn?
    ensures room in (states + more)[|events + extra|].db.draining
  {
    var from := states[|events|];
    var s := PlayingLatest(states, events, room);
    var a, id, h, m := TimeoutDecides(from, room, s);
    var b, other, g, n := Folds(from, a, room, s);
    var base := StillBeside(from, a, b, id, h, m, other, g, n);
    var c := Step(from, base, b, id, h, m);
    var d := Step(from, base, c, id, h.(stage := Committed(h.stage.ref, h.stage.input, StaleSnapshot)), m);
    var e := Step(from, base, d, id, h.(stage := Threw), m);
    more, extra := RunReaches(states, events, e);
  }
}

/** The tables as a set of hand logs: what commits and deals keep, and what recovery makes of them. */
module HandRecords {
  import opened BettingInvariant
  import opened Board
  import opened DurableLog
  import opened Game
  import opened Gateway
  import opened HandEvents
  import opened HandLogs
  import opened Invariants
  import opened Recovery
  import opened Reducer
  import opened Sealing
  import opened Sequences
  import opened Table
  import opened Wrappers

  type Logs = map<HandId, Log>

  function StatusFor(phase: Phase): HandStatus { if phase == Complete then Finished else InProgress }

  /** The tables hold exactly the rows of this log. */
  predicate Recorded(db: Db, log: Log) {
    && Filter(db.snapshots, OfHand(log.room, log.hand)) == SnapshotRows(log, |log.entries|)
    && EventsOf(db, log.hand) == EventRows(log, |log.entries|)
    && HandIndex(db.hands, log.hand) < |db.hands|
    && db.hands[HandIndex(db.hands, log.hand)].roomId == log.room
    && db.hands[HandIndex(db.hands, log.hand)].deadline == log.deadline
    && db.hands[HandIndex(db.hands, log.hand)].status == StatusFor(LastState(log).phase)
    && (LastState(log).phase == Complete <==> log.deadline.None?)
    && forall k: nat | k < |log.entries| :: log.entries[k].actionId in db.operations
  }

  ghost predicate LogFacts(db: Db, log: Log, hand: HandId) {
    log.hand == hand && Recorded(db, log) && exists d :: LogOk(log, d)
  }

  ghost predicate Kept(db: Db, log: Log, hand: HandId) {
    forall k {:trigger Open(KeptSeal, k)} :: Open(KeptSeal, k) ==> LogFacts(db, log, hand)
  }

  // ---- The verdict on a recorded hand ----

  lemma NamedLog(log: Log, d: Deal)
    requires LogOk(log, d)
    ensures Named(log, LastState(log).players)
  {
    var n := |log.entries|;
    LogPlaysOn(log, d, n);
    PlaysOnFacts(log.start, LastState(log), d);
    forall k: nat | k < n ensures NamedAt(log, k, LastState(log).players) {
      LogPlaysOn(log, d, k);
      PlaysOnFacts(log.start, StateAt(log, k), d);
    }
  }

  lemma LastSnapshot(log: Log, d: Deal)
    requires LogOk(log, d)
    ensures SnapshotRows(log, |log.entries|)[|log.entries|]
            == Snapshot(log.room, log.hand, LastState(log).version, LastState(log))
    ensures LastState(log).tableId == log.room && LastState(log).handId == log.hand
    ensures AssertInvariants(LastState(log)).None? && |LastState(log).players| >= 2
    ensures NamesOk(LastState(log).players)
  {
    LogStart(log, d);
    LogPlaysOn(log, d, |log.entries|);
    PlaysOnFacts(log.start, LastState(log), d);
    InGamePasses(LastState(log), d);
    InGamePlayable(LastState(log), d);
  }

  /** A recorded hand whose last snapshot is the room's latest is recovered as exactly that state. */
  lemma RecordedIsReady(db: Db, log: Log, d: Deal)
    requires LogOk(log, d) && Recorded(db, log)
    requires LatestOfRoom(db, log.room) == Some(SnapshotRows(log, |log.entries|)[|log.entries|])
    ensures Verdict(db, log.room) == Ready(Runtime(LastState(log), log.deadline))
  {
    LastSnapshot(log, d);
    LogShaped(log, d);
    NamedLog(log, d);
    var s := LatestOfRoom(db, log.room).value;
    HistoryReplays(log, s);
    assert SnapshotOk(log.room, s, db.hands[HandIndex(db.hands, log.hand)]);
  }

  // ---- The latest snapshot of a room belongs to a recorded hand ----

  lemma {:induction false} LastOfFilter(s: seq<Snapshot>, room: RoomId, hand: HandId)
    requires |Filter(s, OfRoom(room))| > 0
    requires Filter(s, OfRoom(room))[|Filter(s, OfRoom(room))| - 1].handId == hand
    ensures var rows := Filter(s, OfHand(room, hand));
            |rows| > 0 && rows[|rows| - 1] == Filter(s, OfRoom(room))[|Filter(s, OfRoom(room))| - 1]
  {
    var last := s[|s| - 1];
    if !OfRoom(room)(last) {
      LastOfFilter(s[..|s| - 1], room, hand);
    }
  }

  lemma FirstOfFilter(s: seq<Snapshot>, room: RoomId)
    requires |Filter(s, OfRoom(room))| > 0
    ensures var last := Filter(s, OfRoom(room))[|Filter(s, OfRoom(room))| - 1]; last in s && last.roomId == room
  {
  }

  // ---- Tables in order ----

  ghost predicate SnapshotsKnown(db: Db, logs: Logs) {
    forall s | s in db.snapshots :: s.handId in logs && logs[s.handId].room == s.roomId
  }

  ghost predicate HandsKnown(db: Db, logs: Logs) {
    forall h | h in db.hands :: h.id in logs
  }

  ghost predicate EventsKnown(db: Db, logs: Logs) {
    forall e | e in db.events :: e.handId in logs
  }

  ghost predicate AllKept(db: Db, logs: Logs) {
    forall hand | hand in logs :: Kept(db, logs[hand], hand)
  }

  /** No action id was committed twice, in one hand or in two. */
  ghost predicate IdsOnce(logs: Logs) {
    forall g, h, i: nat, j: nat | g in logs && h in logs && i < |logs[g].entries| && j < |logs[h].entries| ::
      logs[g].entries[i].actionId == logs[h].entries[j].actionId ==> g == h && i == j
  }

  /** A runtime in memory is a state that was committed, under the version it was committed with. */
  ghost predicate RuntimeKnown(logs: Logs, room: RoomId, r: Runtime) {
    && r.state.handId in logs
    && logs[r.state.handId].room == room
    && exists k: nat :: k <= |logs[r.state.handId].entries| && r.state == StateAt(logs[r.state.handId], k)
  }

  ghost predicate DbOk(db: Db, logs: Logs) {
    forall k {:trigger Open(DbSeal, k)} :: Open(DbSeal, k) ==> DbFacts(db, logs)
  }

  ghost predicate DbFacts(db: Db, logs: Logs) {
    && SnapshotsKnown(db, logs) && HandsKnown(db, logs) && EventsKnown(db, logs)
    && AllKept(db, logs) && IdsOnce(logs)
  }

  // ---- Recovery from tables in order ----

  /** The last committed state of the hand the room's latest snapshot belongs to. */
  ghost predicate RecoversTo(db: Db, logs: Logs, room: RoomId, result: RecoveryResult) {
    match LatestOfRoom(db, room)
    case None => result == NoHand
    case Some(s) => s.handId in logs && logs[s.handId].room == room
                    && result == Ready(Runtime(LastState(logs[s.handId]), logs[s.handId].deadline))
  }

  /** A recovery whose two queries see the same tables finds no hand, or returns exactly the last committed state. */
  lemma RecoveryRoundTrip(db: Db, logs: Logs, room: RoomId)
    requires DbOk(db, logs)
    ensures RecoversTo(db, logs, room, Verdict(db, room))
  {
    var rows := Filter(db.snapshots, OfRoom(room));
    if |rows| > 0 {
      var s := rows[|rows| - 1];
      LatestKnown(db, logs, room);
      LastOfFilter(db.snapshots, room, s.handId);
      var d := KeptLog(db, logs, s.handId);
      RecordedIsReady(db, logs[s.handId], d);
    }
  }

  lemma LatestKnown(db: Db, logs: Logs, room: RoomId)
    requires DbOk(db, logs) && LatestOfRoom(db, room).Some?
    ensures var s := LatestOfRoom(db, room).value; s.handId in logs && logs[s.handId].room == room == s.roomId
  {
    assert Open(DbSeal, 0);
    FirstOfFilter(db.snapshots, room);
  }

  lemma KeptLog(db: Db, logs: Logs, hand: HandId) returns (d: Deal)
    requires DbOk(db, logs) && hand in logs
    ensures logs[hand].hand == hand && Recorded(db, logs[hand]) && LogOk(logs[hand], d)
  {
    assert Open(DbSeal, 0);
    assert Kept(db, logs[hand], hand);
    assert Open(KeptSeal, 0);
    d :| LogOk(logs[hand], d);
  }

  // ---- Appending to a log ----

  function Extended(log: Log, e: Entry, deadline: Option<Deadline>): Log {
    log.(entries := log.entries + [e], deadline := deadline)
  }

  /** b starts with everything a holds. */
  predicate Continues(a: Log, b: Log) {
    && a.room == b.room && a.hand == b.hand && a.start == b.start
    && |a.entries| <= |b.entries| && b.entries[..|a.entries|] == a.entries
  }

  lemma StateKept(a: Log, b: Log, k: nat)
    requires Continues(a, b) && k <= |a.entries|
    ensures StateAt(a, k) == StateAt(b, k)
    ensures k < |a.entries| ==> a.entries[k] == b.entries[k]
  {
    if k < |a.entries| {
      assert b.entries[..|a.entries|][k] == b.entries[k];
    }
    if k > 0 {
      assert b.entries[..|a.entries|][k - 1] == b.entries[k - 1];
    }
  }

  lemma {:induction false} RowsKept(a: Log, b: Log, k: nat)
    requires Continues(a, b) && k <= |a.entries|
    ensures SnapshotRows(a, k) == SnapshotRows(b, k)
    ensures EventRows(a, k) == EventRows(b, k)
  {
    StateKept(a, b, k);
    if k > 0 {
      RowsKept(a, b, k - 1);
      StateKept(a, b, k - 1);
      RowsCounted(a, k - 1);
      RowsCounted(b, k - 1);
    }
  }

  lemma ExtendedAt(log: Log, e: Entry, deadline: Option<Deadline>, k: nat)
    requires k <= |log.entries| && (k < |log.entries| ==> DecidedAt(log, k)) && Decided(LastState(log), e)
    ensures DecidedAt(Extended(log, e, deadline), k)
  {
    StateKept(log, Extended(log, e, deadline), k);
  }

  lemma ExtendedHolds(log: Log, e: Entry, deadline: Option<Deadline>, d: Deal)
    requires LogHolds(log, d) && Decided(LastState(log), e)
    ensures LogHolds(Extended(log, e, deadline), d)
  {
    forall k: nat | k <= |log.entries| ensures DecidedAt(Extended(log, e, deadline), k) {
      ExtendedAt(log, e, deadline, k);
    }
  }

  lemma ExtendedOk(log: Log, e: Entry, deadline: Option<Deadline>, d: Deal)
    requires LogOk(log, d) && Decided(LastState(log), e)
    ensures LogOk(Extended(log, e, deadline), d) && Continues(log, Extended(log, e, deadline))
  {
    assert LogHolds(log, d) by {
      assert Open(LogSeal, 0);
    }
    ExtendedHolds(log, e, deadline, d);
  }

  lemma ExtendedRows(log: Log, e: Entry, deadline: Option<Deadline>)
    ensures var longer := Extended(log, e, deadline);
            var n := |log.entries|;
            && SnapshotRows(longer, n + 1)
               == SnapshotRows(log, n) + [Snapshot(log.room, log.hand, e.state.version, e.state)]
            && EventRows(longer, n + 1)
               == EventRows(log, n)
                  + Rows(log.hand, |EventRows(log, n)|, e.state.version, e.events, e.actionId)
  {
    RowsKept(log, Extended(log, e, deadline), |log.entries|);
    RowsCounted(log, |log.entries|);
    RowsCounted(Extended(log, e, deadline), |log.entries|);
  }

  lemma LatestIsLast(db: Db, log: Log, d: Deal)
    requires LogOk(log, d) && Recorded(db, log)
    ensures LatestOfHand(db, log.room, log.hand)
            == Some(Snapshot(log.room, log.hand, LastState(log).version, LastState(log)))
    ensures LastSequence(EventsOf(db, log.hand)) == |EventRows(log, |log.entries|)|
  {
    LogShaped(log, d);
    LastSnapshot(log, d);
    NewestIsLast(log, |log.entries|);
    Gapless(log, |log.entries|);
    LastIsLength(EventRows(log, |log.entries|));
  }

  /** A state of the log with the version of the latest snapshot is the last state. */
  lemma CurrentIsLast(log: Log, d: Deal, k: nat)
    requires LogOk(log, d) && k <= |log.entries| && StateAt(log, k).version == LastState(log).version
    ensures k == |log.entries|
  {
    LogShaped(log, d);
    if k < |log.entries| {
      VersionsGrow(log, k, |log.entries|);
    }
  }

  lemma IndexKept(hands: seq<HandRow>, i: nat, row: HandRow, id: HandId)
    requires i < |hands| && row.id == hands[i].id
    ensures HandIndex(hands[i := row], id) == HandIndex(hands, id)
  {
    FirstWhereMatches(hands[i := row], hands, HandWith(id));
  }

  lemma AppendedFilters(db: Db, c: CommitInput, room: RoomId, hand: HandId)
    ensures Filter(Appended(db, c).snapshots, OfHand(room, hand))
            == Filter(db.snapshots, OfHand(room, hand))
               + (if c.roomId == room && c.handId == hand
                  then [Snapshot(c.roomId, c.handId, c.newVersion, c.state)] else [])
    ensures EventsOf(Appended(db, c), hand)
            == EventsOf(db, hand)
               + (if c.handId == hand
                  then Rows(c.handId, LastSequence(EventsOf(db, hand)), c.newVersion, c.events, c.actionId) else [])
  {
    FilterAppend(db.snapshots, Snapshot(c.roomId, c.handId, c.newVersion, c.state), OfHand(room, hand));
    var rows := Rows(c.handId, LastSequence(EventsOf(db, c.handId)), c.newVersion, c.events, c.actionId);
    FilterJoin(db.events, rows, EventOfHand(hand));
    if c.handId == hand {
      FilterAll(rows, EventOfHand(hand));
    } else {
      FilterNone(rows, EventOfHand(hand));
    }
  }

  lemma AppendedIndex(db: Db, c: CommitInput, hand: HandId)
    ensures HandIndex(Appended(db, c).hands, hand) == HandIndex(db.hands, hand)
  {
    var i := HandIndex(db.hands, c.handId);
    if i < |db.hands| {
      IndexKept(db.hands, i, CloseHand(db.hands[i], c.deadline), hand);
    }
  }

  /** The commit writes what the next entry of the log stands for. */
  predicate CommitFor(c: CommitInput, log: Log, e: Entry) {
    && c.roomId == log.room && c.handId == log.hand && c.actionId == e.actionId
    && c.events == e.events && c.state == e.state && c.newVersion == e.state.version
    && (c.deadline.None? <==> e.state.phase == Complete)
  }

  lemma AppendedRows(db: Db, c: CommitInput, log: Log, e: Entry, d: Deal)
    requires LogOk(log, d) && Recorded(db, log) && CommitFor(c, log, e)
    ensures var longer, after := Extended(log, e, c.deadline), Appended(db, c);
            && Filter(after.snapshots, OfHand(log.room, log.hand)) == SnapshotRows(longer, |longer.entries|)
            && EventsOf(after, log.hand) == EventRows(longer, |longer.entries|)
            && HandIndex(after.hands, log.hand) == HandIndex(db.hands, log.hand)
  {
    LatestIsLast(db, log, d);
    AppendedFilters(db, c, log.room, log.hand);
    AppendedIndex(db, c, log.hand);
    ExtendedRows(log, e, c.deadline);
  }

  lemma AppendedRecorded(db: Db, c: CommitInput, log: Log, e: Entry, d: Deal)
    requires LogOk(log, d) && Recorded(db, log) && CommitFor(c, log, e)
    requires LastState(log).phase != Complete
    ensures Recorded(Appended(db, c), Extended(log, e, c.deadline))
  {
    var longer := Extended(log, e, c.deadline);
    AppendedRows(db, c, log, e, d);
    assert LastState(longer) == e.state;
    forall k: nat | k < |longer.entries| ensures longer.entries[k].actionId in Appended(db, c).operations {
      if k < |log.entries| {
        assert longer.entries[k] == log.entries[k];
      }
    }
  }

  lemma AppendedOthers(db: Db, c: CommitInput, log: Log)
    requires Recorded(db, log) && c.handId != log.hand
    ensures Recorded(Appended(db, c), log)
  {
    AppendedFilters(db, c, log.room, log.hand);
    AppendedIndex(db, c, log.hand);
    var i, j := HandIndex(db.hands, c.handId), HandIndex(db.hands, log.hand);
    assert i < |db.hands| ==> db.hands[i].id == c.handId;
    assert Appended(db, c).hands[j] == db.hands[j];
  }

  // ---- One commit ----

  /** No log loses anything. */
  ghost predicate Grows(a: Logs, b: Logs) {
    forall hand | hand in a :: hand in b && Continues(a[hand], b[hand])
  }

  lemma RuntimeGrows(a: Logs, b: Logs, room: RoomId, r: Runtime)
    requires Grows(a, b) && RuntimeKnown(a, room, r)
    ensures RuntimeKnown(b, room, r)
  {
    var h := r.state.handId;
    var k: nat :| k <= |a[h].entries| && r.state == StateAt(a[h], k);
    StateKept(a[h], b[h], k);
    assert k <= |b[h].entries| && r.state == StateAt(b[h], k);
  }

  lemma NewIdIsOnce(db: Db, logs: Logs, hand: HandId, e: Entry, deadline: Option<Deadline>)
    requires DbOk(db, logs) && hand in logs && e.actionId !in db.operations
    ensures IdsOnce(logs[hand := Extended(logs[hand], e, deadline)])
  {
    var after := logs[hand := Extended(logs[hand], e, deadline)];
    forall h, k: nat | h in logs && k < |logs[h].entries| ensures logs[h].entries[k].actionId != e.actionId {
      var d := KeptLog(db, logs, h);
    }
    assert Open(DbSeal, 0);
    forall g, h, i: nat, j: nat |
      g in after && h in after && i < |after[g].entries| && j < |after[h].entries|
      && after[g].entries[i].actionId == after[h].entries[j].actionId
      ensures g == h && i == j
    {
      assert g in logs && h in logs;
      assert i < |logs[g].entries| ==> after[g].entries[i] == logs[g].entries[i];
      assert j < |logs[h].entries| ==> after[h].entries[j] == logs[h].entries[j];
    }
  }

  lemma AppendedKept(db: Db, logs: Logs, c: CommitInput, e: Entry, d: Deal)
    requires DbOk(db, logs) && c.handId in logs && LogOk(logs[c.handId], d)
    requires CommitFor(c, logs[c.handId], e) && Decided(LastState(logs[c.handId]), e)
    requires LastState(logs[c.handId]).phase != Complete
    ensures AllKept(Appended(db, c), logs[c.handId := Extended(logs[c.handId], e, c.deadline)])
  {
    var after := logs[c.handId := Extended(logs[c.handId], e, c.deadline)];
    forall hand | hand in after ensures Kept(Appended(db, c), after[hand], hand) {
      var dd := KeptLog(db, logs, hand);
      if hand == c.handId {
        AppendedRecorded(db, c, logs[hand], e, d);
        ExtendedOk(logs[hand], e, c.deadline, d);
      } else {
        AppendedOthers(db, c, logs[hand]);
      }
      assert LogFacts(Appended(db, c), after[hand], hand);
    }
  }

  lemma AppendedKnown(db: Db, logs: Logs, c: CommitInput, e: Entry)
    requires DbOk(db, logs) && c.handId in logs && logs[c.handId].room == c.roomId
    ensures var after := logs[c.handId := Extended(logs[c.handId], e, c.deadline)];
            SnapshotsKnown(Appended(db, c), after) && HandsKnown(Appended(db, c), after)
            && EventsKnown(Appended(db, c), after) && Grows(logs, after)
  {
    assert Open(DbSeal, 0);
    var after := logs[c.handId := Extended(logs[c.handId], e, c.deadline)];
    var i := HandIndex(db.hands, c.handId);
    forall h | h in Appended(db, c).hands ensures h.id in after {
      var k :| 0 <= k < |Appended(db, c).hands| && Appended(db, c).hands[k] == h;
      assert db.hands[k] in db.hands;
    }
  }

  lemma StacksKept(s: State, d: Deal)
    requires InGame(s, d)
    ensures StacksValid(StacksOf(s.players))
  {
    StacksSettled(s, d);
  }

  /** The decision was taken in the log's last state, which was still live. */
  lemma DecidedLast(log: Log, d: Deal, s: State, q: Request, f: Finalized, k: nat)
    requires LogOk(log, d) && k <= |log.entries| && s == StateAt(log, k)
    requires s.version == LastState(log).version && Playable(s) && Decide(s, q) == Ok(f)
    ensures s == LastState(log) && Decided(LastState(log), Entry(f.state, f.events, q.actionId))
    ensures LastState(log).phase != Complete && StacksValid(StacksOf(f.state.players)) && f.state.handId == log.hand
  {
    CurrentIsLast(log, d, k);
    LogStart(log, d);
    LogPlaysOn(log, d, k);
    PlaysOnFacts(log.start, LastState(log), d);
    DecideFits(LastState(log), q, d);
    StacksKept(f.state, d);
  }

  lemma AppendedDbOk(db: Db, logs: Logs, c: CommitInput, e: Entry, d: Deal)
    requires DbOk(db, logs) && c.handId in logs && LogOk(logs[c.handId], d) && c.actionId !in db.operations
    requires CommitFor(c, logs[c.handId], e) && Decided(LastState(logs[c.handId]), e)
    requires LastState(logs[c.handId]).phase != Complete
    ensures var after := logs[c.handId := Extended(logs[c.handId], e, c.deadline)];
            DbOk(Appended(db, c), after) && Grows(logs, after) && LastState(after[c.handId]) == e.state
  {
    AppendedKept(db, logs, c, e, d);
    AppendedKnown(db, logs, c, e);
    NewIdIsOnce(db, logs, c.handId, e, c.deadline);
  }

  lemma LastIsKnown(logs: Logs, hand: HandId, r: Runtime)
    requires hand in logs && r.state == LastState(logs[hand]) && r.state.handId == hand
    ensures RuntimeKnown(logs, logs[hand].room, r)
  {
    assert |logs[hand].entries| <= |logs[hand].entries| && r.state == StateAt(logs[hand], |logs[hand].entries|);
  }

  lemma KnownPlays(db: Db, logs: Logs, room: RoomId, r: Runtime)
    requires DbOk(db, logs) && RuntimeKnown(logs, room, r)
    ensures Playable(r.state) && r.state.tableId == room
  {
    var log := logs[r.state.handId];
    var d := KeptLog(db, logs, r.state.handId);
    var k: nat :| k <= |log.entries| && r.state == StateAt(log, k);
    LogStart(log, d);
    LogPlaysOn(log, d, k);
    PlaysOnFacts(log.start, r.state, d);
    InGamePlayable(r.state, d);
  }

  ghost predicate OperationsKept(a: Db, b: Db) {
    forall id | id in a.operations :: id in b.operations && b.operations[id] == a.operations[id]
  }

  /** Draining a room, taking a seat or leaving one touches no hand. */
  lemma SideChange(db: Db, after: Db, logs: Logs)
    requires DbOk(db, logs) && after.(draining := db.draining, operations := db.operations, seats := db.seats) == db
    requires OperationsKept(db, after)
    ensures DbOk(after, logs)
  {
    assert Open(DbSeal, 0);
    forall hand | hand in logs ensures Kept(after, logs[hand], hand) {
      var d := KeptLog(db, logs, hand);
      assert Recorded(after, logs[hand]);
      assert LogFacts(after, logs[hand], hand);
    }
  }

  // ---- Dealing a hand ----

  lemma IndexAppended(hands: seq<HandRow>, row: HandRow, id: HandId)
    ensures HandIndex(hands + [row], id)
            == if HandIndex(hands, id) < |hands| || row.id == id then HandIndex(hands, id) else |hands| + 1
  {
    FirstWhereAppend(hands, row, HandWith(id));
  }

  lemma CreatedFilters(db: Db, c: CreateInput, room: RoomId, hand: HandId)
    requires Create(db, c).1.Created?
    ensures Filter(Create(db, c).0.snapshots, OfHand(room, hand))
            == Filter(db.snapshots, OfHand(room, hand))
               + (if c.roomId == room && c.handId == hand then [Snapshot(c.roomId, c.handId, 0, c.state)] else [])
    ensures EventsOf(Create(db, c).0, hand) == EventsOf(db, hand)
    ensures HandIndex(db.hands, hand) < |db.hands| ==>
              HandIndex(Create(db, c).0.hands, hand) == HandIndex(db.hands, hand)
    ensures HandIndex(Create(db, c).0.hands, c.handId) == |db.hands|
  {
    FilterAppend(db.snapshots, Snapshot(c.roomId, c.handId, 0, c.state), OfHand(room, hand));
    var row := Create(db, c).0.hands[|db.hands|];
    assert Create(db, c).0.hands == db.hands + [row];
    IndexAppended(db.hands, row, hand);
    IndexAppended(db.hands, row, c.handId);
  }

  function FreshLog(c: CreateInput): Log { Log(c.roomId, c.handId, c.state, [], Some(c.deadline)) }

  lemma UnknownHand(db: Db, logs: Logs, hand: HandId, room: RoomId)
    requires DbOk(db, logs) && HandIndex(db.hands, hand) == |db.hands|
    ensures hand !in logs && Filter(db.snapshots, OfHand(room, hand)) == [] && EventsOf(db, hand) == []
  {
    if hand in logs {
      var d := KeptLog(db, logs, hand);
    }
    assert Open(DbSeal, 0);
    FilterNone(db.snapshots, OfHand(room, hand));
    FilterNone(db.events, EventOfHand(hand));
  }

  lemma FreshRecorded(db: Db, logs: Logs, c: CreateInput)
    requires DbOk(db, logs) && Create(db, c).1.Created? && c.state.phase != Complete
    ensures Recorded(Create(db, c).0, FreshLog(c))
  {
    UnknownHand(db, logs, c.handId, c.roomId);
    CreatedFilters(db, c, c.roomId, c.handId);
  }

  lemma OthersRecorded(db: Db, c: CreateInput, log: Log)
    requires Recorded(db, log) && Create(db, c).1.Created? && c.handId != log.hand
    ensures Recorded(Create(db, c).0, log)
  {
    CreatedFilters(db, c, log.room, log.hand);
  }

  lemma CreatedKept(db: Db, logs: Logs, c: CreateInput, d: Deal)
    requires DbOk(db, logs) && Create(db, c).1.Created? && StartOk(c.roomId, c.handId, c.state, d)
    ensures c.handId !in logs && AllKept(Create(db, c).0, logs[c.handId := FreshLog(c)])
  {
    UnknownHand(db, logs, c.handId, c.roomId);
    var after := logs[c.handId := FreshLog(c)];
    forall hand | hand in after ensures Kept(Create(db, c).0, after[hand], hand) {
      if hand == c.handId {
        FreshRecorded(db, logs, c);
        assert LogOk(FreshLog(c), d);
      } else {
        var e := KeptLog(db, logs, hand);
        OthersRecorded(db, c, logs[hand]);
      }
      assert LogFacts(Create(db, c).0, after[hand], hand);
    }
  }

  lemma CreatedKnown(db: Db, logs: Logs, c: CreateInput)
    requires DbOk(db, logs) && Create(db, c).1.Created? && c.handId !in logs
    ensures var after := logs[c.handId := FreshLog(c)];
            && SnapshotsKnown(Create(db, c).0, after) && HandsKnown(Create(db, c).0, after)
            && EventsKnown(Create(db, c).0, after) && IdsOnce(after) && Grows(logs, after)
  {
    assert Open(DbSeal, 0);
  }

  /** Dealing a live hand starts a new log. */
  lemma CreatedDbOk(db: Db, logs: Logs, c: CreateInput, d: Deal)
    requires DbOk(db, logs) && Create(db, c).1.Created? && StartOk(c.roomId, c.handId, c.state, d)
    ensures var after := logs[c.handId := FreshLog(c)];
            && c.handId !in logs && DbOk(Create(db, c).0, after) && Grows(logs, after)
            && LastState(after[c.handId]) == c.state
  {
    CreatedKept(db, logs, c, d);
    CreatedKnown(db, logs, c);
  }

  // ---- When a write takes effect ----

  lemma HandOnRecord(hands: seq<HandRow>, id: HandId)
    ensures HandIndex(hands, id) < |hands| <==> exists i :: 0 <= i < |hands| && hands[i].id == id
  {
  }

  /** Whatever the tables hold: a commit takes effect exactly if its id is new, the hand is on record with its newest
      snapshot at the expected version, and no stack is negative; a refusal or a replay changes nothing. */
  lemma CommitOutcomes(db: Db, c: CommitInput)
    ensures var (after, r), latest := Commit(db, c), LatestOfHand(db, c.roomId, c.handId);
            && ((r.Acked? && r.committed) <==>
                && c.actionId !in db.operations
                && latest.Some? && latest.value.version == c.expectedVersion
                && (forall i | 0 <= i < |c.seatStacks| :: c.seatStacks[i].stack >= 0)
                && exists i :: 0 <= i < |db.hands| && db.hands[i].id == c.handId)
            && (c.actionId in db.operations <==> r == ActionIdConflict || (r.Acked? && !r.committed))
            && (r == StaleSnapshot <==>
                c.actionId !in db.operations && (latest.None? || latest.value.version != c.expectedVersion))
            && (!(r.Acked? && r.committed) ==> after == db)
  {
    HandOnRecord(db.hands, c.handId);
  }

  /** A hand is created exactly if its id is new and no stack is negative; a refusal changes nothing. */
  lemma CreateOutcomes(db: Db, c: CreateInput)
    ensures var (after, r) := Create(db, c);
            && (r.Created? <==>
                && (forall i | 0 <= i < |db.hands| :: db.hands[i].id != c.handId)
                && (forall i | 0 <= i < |c.seatStacks| :: c.seatStacks[i].stack >= 0))
            && (!r.Created? ==> after == db)
  {
    HandOnRecord(db.hands, c.handId);
  }

  // ---- What the record shows ----

  /** The events of a hand are numbered 1, 2, 3 and so on. */
  lemma SequencesCount(db: Db, logs: Logs, hand: HandId)
    requires DbOk(db, logs) && hand in logs
    ensures forall i | 0 <= i < |EventsOf(db, hand)| :: EventsOf(db, hand)[i].sequence == i + 1
  {
    var d := KeptLog(db, logs, hand);
    Gapless(logs[hand], |logs[hand].entries|);
  }

  /** Consecutive snapshots of a hand are the engine's own steps, one version apart, or two when the hand settles. */
  lemma SnapshotsChain(db: Db, logs: Logs, hand: HandId, k: nat)
    requires DbOk(db, logs) && hand in logs
    requires k + 1 < |Filter(db.snapshots, OfHand(logs[hand].room, hand))|
    ensures var rows := Filter(db.snapshots, OfHand(logs[hand].room, hand));
            && Playable(rows[k].state)
            && rows[k + 1].version == rows[k + 1].state.version
            && rows[k + 1].version == rows[k].version + (if rows[k + 1].state.phase == Complete then 2 else 1)
            && exists q: Request ::
                 Decide(rows[k].state, q).Ok? && Decide(rows[k].state, q).value.state == rows[k + 1].state
  {
    var d := KeptLog(db, logs, hand);
    var log := logs[hand];
    LogShaped(log, d);
    SnapshotAt(log, |log.entries|, k);
    SnapshotAt(log, |log.entries|, k + 1);
    assert ShapedAt(log, k);
    LogStart(log, d);
    LogEntry(log, d, k);
    assert Open(DecidedSeal, 0);
  }

  lemma {:induction false} SnapshotAt(log: Log, n: nat, k: nat)
    requires k <= n <= |log.entries| && log.start.version == 0
    ensures SnapshotRows(log, n)[k] == Snapshot(log.room, log.hand, StateAt(log, k).version, StateAt(log, k))
  {
    if k < n {
      SnapshotAt(log, n - 1, k);
    }
  }

  /** An action id stands for at most one entry of one hand. */
  lemma ActionsTakeEffectOnce(db: Db, logs: Logs, g: HandId, h: HandId, i: nat, j: nat)
    requires DbOk(db, logs) && g in logs && h in logs && i < |logs[g].entries| && j < |logs[h].entries|
    requires logs[g].entries[i].actionId == logs[h].entries[j].actionId
    ensures g == h && i == j
  {
    assert Open(DbSeal, 0);
  }

  lemma FreshLatest(db: Db, c: CreateInput)
    requires Create(db, c).1.Created?
    ensures LatestOfRoom(Create(db, c).0, c.roomId) == Some(Snapshot(c.roomId, c.handId, 0, c.state))
    ensures var after := Create(db, c).0;
            var i := HandIndex(after.hands, c.handId);
            i < |after.hands| && after.hands[i].deadline.Some?
  {
    FilterAppend(db.snapshots, Snapshot(c.roomId, c.handId, 0, c.state), OfRoom(c.roomId));
    CreatedFilters(db, c, c.roomId, c.handId);
  }

  /** A hand just dealt is recovered if and only if it was dealt live. */
  lemma FreshHandRecovers(db: Db, logs: Logs, c: CreateInput, d: Deal)
    requires DbOk(db, logs) && Create(db, c).1.Created?
    requires InGame(c.state, d) && NamesOk(c.state.players)
    requires c.state.version == 0 && c.state.tableId == c.roomId && c.state.handId == c.handId
    ensures Verdict(Create(db, c).0, c.roomId)
            == if c.state.phase != Complete then Ready(Runtime(c.state, Some(c.deadline))) else Drained
  {
    FreshLatest(db, c);
    if c.state.phase != Complete {
      FreshRecorded(db, logs, c);
      assert LogOk(FreshLog(c), d);
      RecordedIsReady(Create(db, c).0, FreshLog(c), d);
    }
  }
}

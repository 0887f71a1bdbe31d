/** Rebuilding a table's runtime from its durable record, or refusing to. */
module Recovery {
  import opened DurableLog
  import opened Invariants
  import opened Reducer
  import opened Sequences
  import opened Table
  import opened Wrappers

  datatype Runtime = Runtime(state: State, deadline: Option<Deadline>)

  datatype RecoveryResult = Ready(runtime: Runtime) | NoHand | Drained

  predicate StacksPayload(stacks: map<PlayerId, int>) {
    forall id | id in stacks :: stacks[id] >= 0
  }

  predicate EventPayloadOk(e: GameEvent) {
    match e
    case HandSettled(_, _, stacks) => StacksPayload(stacks)
    case Move(StreetCompleted(phase)) => phase != Preflop
    case Move(PlayerFolded(id)) => |id| > 0
    case Move(PlayerChecked(id)) => |id| > 0
    case Move(PlayerCalled(id, amount)) => |id| > 0 && amount > 0
    case Move(PlayerBet(id, amount)) => |id| > 0 && amount > 0
    case Move(PlayerRaised(id, amount, _)) => |id| > 0 && amount > 0
  }

  predicate EventOwnersOk(ps: seq<Player>, e: GameEvent) {
    match e
    case HandSettled(_, _, stacks) => forall id | id in stacks :: IsPlayer(ps, id)
    case Move(StreetCompleted(_)) => true
    case Move(m) => IsPlayer(ps, m.playerId)
  }

  predicate IsSettlement(e: EventRow) { e.event.HandSettled? }

  function AtVersion(version: int): EventRow -> bool { (e: EventRow) => e.version == version }

  /** Several events share the version and exactly the last of them settles the hand. */
  predicate PairedSettlement(rows: seq<EventRow>, version: int) {
    var same := Filter(rows, AtVersion(version));
    && |same| >= 2
    && IsSettlement(same[|same| - 1])
    && Count(same, IsSettlement) == 1
  }

  predicate RowOk(rows: seq<EventRow>, ps: seq<Player>, prior: int, index: nat)
    requires index < |rows|
  {
    var e := rows[index];
    && e.sequence == index + 1
    && e.version >= prior
    && e.version - prior <= 2
    && (e.version - prior == 2 ==> PairedSettlement(rows, e.version))
    && EventPayloadOk(e.event)
    && EventOwnersOk(ps, e.event)
  }

  /** The version reached after the first k rows, if none of them is refused. */
  function Replay(rows: seq<EventRow>, ps: seq<Player>, k: nat): Option<int>
    requires k <= |rows|
  {
    if k == 0 then Some(0)
    else
      var prior := Replay(rows, ps, k - 1);
      if prior.Some? && RowOk(rows, ps, prior.value, k - 1) then Some(rows[k - 1].version) else None
  }

  /** What the snapshot alone must satisfy. */
  predicate SnapshotOk(room: RoomId, s: Snapshot, hand: HandRow) {
    && |s.state.players| >= 2
    && s.state.tableId == room
    && hand.roomId == room
    && s.state.handId == s.handId
    && s.state.version == s.version
    && AssertInvariants(s.state).None?
    && (s.state.phase == Complete <==> hand.deadline.None?)
    && hand.status == (if s.state.phase == Complete then Finished else InProgress)
  }

  predicate HistoryOk(s: Snapshot, rows: seq<EventRow>) {
    var reached := Replay(rows, s.state.players, |rows|);
    reached.Some? && (|rows| > 0 ==> reached.value == s.version)
  }

  /** What the first query and the checks on it alone lead to. */
  datatype Found = Nothing | Unfit | Fit(snapshot: Snapshot, hand: HandRow)

  function ReadLatest(db: Db, room: RoomId): Found {
    var latest := LatestOfRoom(db, room);
    if latest.None? then Nothing
    else
      var i := HandIndex(db.hands, latest.value.handId);
      if i < |db.hands| && SnapshotOk(room, latest.value, db.hands[i]) then Fit(latest.value, db.hands[i]) else Unfit
  }

  /** The runtime a recovered snapshot becomes. */
  function Restored(s: Snapshot, hand: HandRow): Runtime { Runtime(s.state, hand.deadline) }

  /** The verdict when both queries see the same tables. */
  function Verdict(db: Db, room: RoomId): RecoveryResult {
    match ReadLatest(db, room)
    case Nothing => NoHand
    case Unfit => Drained
    case Fit(s, hand) => if HistoryOk(s, EventsOf(db, s.handId)) then Ready(Restored(s, hand)) else Drained
  }

  /** A cached table; handlers hold on to it and the store names the one to find. */
  class TableRuntime {
    var state: State
    var deadline: Option<Deadline>

    function Value(): Runtime
      reads this
    {
      Runtime(state, deadline)
    }

    constructor (r: Runtime)
      ensures Value() == r
    {
      state, deadline := r.state, r.deadline;
    }
  }

  /** One server process over the shared database. Each method runs between two of recovery's waits: the snapshot and
      the events are read by separate queries, and anything can happen in between. */
  class Server {
    const db: Database
    var runtimes: map<RoomId, TableRuntime>

    constructor (db: Database)
      ensures this.db == db && runtimes == map[]
    {
      this.db := db;
      runtimes := map[];
    }

    method Cached(room: RoomId) returns (r: Option<TableRuntime>)
      ensures r.Some? <==> room in runtimes
      ensures r.Some? ==> r.value == runtimes[room]
    {
      if room in runtimes {
        return Some(runtimes[room]);
      }
      return None;
    }

    /** The first query, with the checks that need nothing else. */
    method ReadSnapshot(room: RoomId) returns (found: Found)
      ensures found == ReadLatest(db.Contents(), room)
    {
      var latest := LatestOfRoom(db.Contents(), room);
      if latest.None? {
        return Nothing;
      }
      var i := HandIndex(db.hands, latest.value.handId);
      if i == |db.hands| || !SnapshotOk(room, latest.value, db.hands[i]) {
        return Unfit;
      }
      return Fit(latest.value, db.hands[i]);
    }

    /** Replays the hand's events against the snapshot. */
    method CheckHistory(s: Snapshot, rows: seq<EventRow>) returns (ok: bool)
      ensures ok == HistoryOk(s, rows)
    {
      var priorVersion := 0;
      for index := 0 to |rows|
        invariant Replay(rows, s.state.players, index) == Some(priorVersion)
      {
        var event := rows[index];
        var versionJump := event.version - priorVersion;
        var paired := PairedSettlement(rows, event.version);
        if event.sequence != index + 1 || event.version < priorVersion || versionJump > 2
           || (versionJump == 2 && !paired) || !EventPayloadOk(event.event)
           || !EventOwnersOk(s.state.players, event.event) {
          StaysRefused(rows, s.state.players, index + 1, |rows|);
          return false;
        }
        priorVersion := event.version;
      }
      return |rows| == 0 || priorVersion == s.version;
    }

    /** The second query, at a later time: a snapshot its events confirm becomes the room's runtime. */
    method ReadEvents(room: RoomId, s: Snapshot, hand: HandRow) returns (r: Option<TableRuntime>)
      modifies this
      ensures r.Some? <==> HistoryOk(s, EventsOf(db.Contents(), s.handId))
      ensures r.Some? ==> fresh(r.value) && r.value.Value() == Restored(s, hand)
                          && runtimes == old(runtimes)[room := r.value]
      ensures r.None? ==> runtimes == old(runtimes)
    {
      var ok := CheckHistory(s, EventsOf(db.Contents(), s.handId));
      if !ok {
        return None;
      }
      var runtime := new TableRuntime(Restored(s, hand));
      runtimes := runtimes[room := runtime];
      return Some(runtime);
    }

    /** Clears a room's entry; handlers that hold the runtime keep it. */
    method Forget(room: RoomId)
      modifies this
      ensures runtimes == old(runtimes) - {room}
    {
      runtimes := runtimes - {room};
    }
  }

  lemma {:induction false} StaysRefused(rows: seq<EventRow>, ps: seq<Player>, k: nat, n: nat)
    requires k <= n <= |rows| && Replay(rows, ps, k).None?
    ensures Replay(rows, ps, n).None?
  {
    if k < n {
      StaysRefused(rows, ps, k, n - 1);
    }
  }

  /** The version before row i. */
  function Prior(rows: seq<EventRow>, i: nat): int
    requires i <= |rows|
  {
    if i == 0 then 0 else rows[i - 1].version
  }

  lemma {:induction false} ReplayAll(rows: seq<EventRow>, ps: seq<Player>, k: nat)
    requires k <= |rows|
    ensures Replay(rows, ps, k).Some? <==> forall i: nat | i < k :: RowOk(rows, ps, Prior(rows, i), i)
    ensures Replay(rows, ps, k).Some? ==> Replay(rows, ps, k).value == Prior(rows, k)
  {
    if k > 0 {
      ReplayAll(rows, ps, k - 1);
    }
  }

  /** The loop accepts exactly the histories that are numbered from 1 without a gap, in which every event names
      seated players and legal amounts, versions never fall and rise by one, or by two at a paired settlement, and
      which end at the snapshot's version. */
  lemma HistoryMeaning(s: Snapshot, rows: seq<EventRow>)
    ensures HistoryOk(s, rows) <==>
            && (forall i | 0 <= i < |rows| :: rows[i].sequence == i + 1)
            && (forall i: nat | i < |rows| :: 0 <= rows[i].version - Prior(rows, i) <= 2)
            && (forall i: nat | i < |rows| && rows[i].version == Prior(rows, i) + 2 ::
                  PairedSettlement(rows, rows[i].version))
            && (forall i | 0 <= i < |rows| ::
                  EventPayloadOk(rows[i].event) && EventOwnersOk(s.state.players, rows[i].event))
            && (|rows| > 0 ==> rows[|rows| - 1].version == s.version)
  {
    ReplayAll(rows, s.state.players, |rows|);
    forall i: nat | i < |rows|
      ensures RowOk(rows, s.state.players, Prior(rows, i), i) <==>
              && rows[i].sequence == i + 1
              && 0 <= rows[i].version - Prior(rows, i) <= 2
              && (rows[i].version == Prior(rows, i) + 2 ==> PairedSettlement(rows, rows[i].version))
              && EventPayloadOk(rows[i].event) && EventOwnersOk(s.state.players, rows[i].event)
    {
    }
  }
}

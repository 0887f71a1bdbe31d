/** The durable record of hands: rows for hands, snapshots, events and operations, and the two transactions that
    write them. */
module DurableLog {
  import opened Sequences
  import opened Table
  import opened Wrappers

  type RoomId = string

  type HandId = string

  type PayloadHash = string

  type Deadline = int

  datatype ActionId = Submitted(id: string) | ServerTimeout(handId: HandId, version: int)

  datatype GameEvent =
    | Move(event: Event)
    | HandSettled(pot: int, awards: map<PlayerId, int>, stacks: map<PlayerId, int>)

  datatype HandStatus = InProgress | Finished

  datatype HandRow = HandRow(id: HandId, roomId: RoomId, number: nat, deadline: Option<Deadline>, status: HandStatus)

  datatype Snapshot = Snapshot(roomId: RoomId, handId: HandId, version: int, state: State)

  datatype EventRow = EventRow(
    handId: HandId,
    sequence: nat,
    version: int,
    event: GameEvent,
    actionId: Option<ActionId>)

  datatype OperationKind = PlayerAction | LeaveOperation

  datatype Ack = Ack(actionId: ActionId, version: int, events: seq<GameEvent>, automatic: bool)

  datatype Operation = Operation(
    kind: OperationKind,
    roomId: RoomId,
    handId: HandId,
    userId: PlayerId,
    payloadHash: PayloadHash,
    ack: Ack)

  datatype Db = Db(
    hands: seq<HandRow>,
    snapshots: seq<Snapshot>,
    events: seq<EventRow>,
    operations: map<ActionId, Operation>,
    seats: map<(RoomId, PlayerId), int>,
    draining: set<RoomId>)

  datatype SeatStack = SeatStack(userId: PlayerId, stack: int)

  datatype CommitInput = CommitInput(
    roomId: RoomId,
    handId: HandId,
    actionId: ActionId,
    actorUserId: PlayerId,
    payloadHash: PayloadHash,
    expectedVersion: int,
    events: seq<GameEvent>,
    state: State,
    ack: Ack,
    seatStacks: seq<SeatStack>,
    newVersion: int,
    deadline: Option<Deadline>)

  datatype CommitResult =
    | Acked(operation: Operation, committed: bool)
    | ActionIdConflict
    | StaleSnapshot
    | InvalidSeatStack
    | HandMissing

  datatype CreateInput = CreateInput(
    roomId: RoomId,
    handId: HandId,
    state: State,
    seatStacks: seq<SeatStack>,
    deadline: Deadline)

  datatype CreateResult = Created(snapshot: Snapshot) | HandExists | InvalidStartStack

  // ---- Queries ----

  function InRoom(room: RoomId): HandRow -> bool { (h: HandRow) => h.roomId == room }

  function OfHand(room: RoomId, hand: HandId): Snapshot -> bool {
    (s: Snapshot) => s.roomId == room && s.handId == hand
  }

  function OfRoom(room: RoomId): Snapshot -> bool { (s: Snapshot) => s.roomId == room }

  function EventOfHand(hand: HandId): EventRow -> bool { (e: EventRow) => e.handId == hand }

  function HandWith(id: HandId): HandRow -> bool { (h: HandRow) => h.id == id }

  function HandIndex(hands: seq<HandRow>, id: HandId): (i: nat)
    ensures i <= |hands|
    ensures i < |hands| ==> hands[i].id == id
    ensures forall k | 0 <= k < i :: hands[k].id != id
  {
    FirstWhere(hands, HandWith(id))
  }

  function HighestNumber(hands: seq<HandRow>): nat {
    if |hands| == 0 then 0
    else
      var before := HighestNumber(hands[..|hands| - 1]);
      if hands[|hands| - 1].number > before then hands[|hands| - 1].number else before
  }

  /** The row with the highest version. */
  function Newest(snapshots: seq<Snapshot>): Option<Snapshot> {
    if |snapshots| == 0 then None
    else
      var before := Newest(snapshots[..|snapshots| - 1]);
      var last := snapshots[|snapshots| - 1];
      if before.None? || last.version > before.value.version then Some(last) else before
  }

  function LatestOfHand(db: Db, room: RoomId, hand: HandId): Option<Snapshot> {
    Newest(Filter(db.snapshots, OfHand(room, hand)))
  }

  /** The row inserted last for the room. */
  function LatestOfRoom(db: Db, room: RoomId): Option<Snapshot> {
    var rows := Filter(db.snapshots, OfRoom(room));
    if |rows| == 0 then None else Some(rows[|rows| - 1])
  }

  function EventsOf(db: Db, hand: HandId): seq<EventRow> { Filter(db.events, EventOfHand(hand)) }

  function LastSequence(rows: seq<EventRow>): nat {
    if |rows| == 0 then 0
    else
      var before := LastSequence(rows[..|rows| - 1]);
      if rows[|rows| - 1].sequence > before then rows[|rows| - 1].sequence else before
  }

  // ---- Writes ----

  /** Numbered rows for the events of one action; the first carries the action's id. */
  function Rows(hand: HandId, from: nat, version: int, events: seq<GameEvent>, actionId: ActionId): (r: seq<EventRow>)
    ensures |r| == |events|
    ensures forall i | 0 <= i < |r| ::
              r[i] == EventRow(hand, from + i + 1, version, events[i], if i == 0 then Some(actionId) else None)
  {
    seq(|events|, i requires 0 <= i < |events| =>
          EventRow(hand, from + i + 1, version, events[i], if i == 0 then Some(actionId) else None))
  }

  predicate StacksValid(stacks: seq<SeatStack>) {
    forall i | 0 <= i < |stacks| :: stacks[i].stack >= 0
  }

  /** Updates the seats that exist in the room. */
  function WithStacks(seats: map<(RoomId, PlayerId), int>, room: RoomId, stacks: seq<SeatStack>)
    : map<(RoomId, PlayerId), int>
  {
    if |stacks| == 0 then seats
    else
      var before := WithStacks(seats, room, stacks[..|stacks| - 1]);
      var last := stacks[|stacks| - 1];
      if (room, last.userId) in before then before[(room, last.userId) := last.stack] else before
  }

  function OperationOf(c: CommitInput): Operation {
    Operation(PlayerAction, c.roomId, c.handId, c.actorUserId, c.payloadHash, c.ack)
  }

  predicate SameRequest(o: Operation, c: CommitInput) {
    && o.kind == PlayerAction
    && o.handId == c.handId
    && o.userId == c.actorUserId
    && o.roomId == c.roomId
    && o.payloadHash == c.payloadHash
  }

  function CloseHand(h: HandRow, deadline: Option<Deadline>): HandRow {
    h.(deadline := deadline, status := if deadline.None? then Finished else h.status)
  }

  /** The tables after an action is appended to its hand. */
  function Appended(db: Db, c: CommitInput): Db {
    var i := HandIndex(db.hands, c.handId);
    db.(operations := db.operations[c.actionId := OperationOf(c)],
        events := db.events
                  + Rows(c.handId, LastSequence(EventsOf(db, c.handId)), c.newVersion, c.events, c.actionId),
        snapshots := db.snapshots + [Snapshot(c.roomId, c.handId, c.newVersion, c.state)],
        seats := WithStacks(db.seats, c.roomId, c.seatStacks),
        hands := if i < |db.hands| then db.hands[i := CloseHand(db.hands[i], c.deadline)] else db.hands)
  }

  function Commit(db: Db, c: CommitInput): (Db, CommitResult) {
    if c.actionId in db.operations then
      if SameRequest(db.operations[c.actionId], c) then (db, Acked(db.operations[c.actionId], false))
      else (db, ActionIdConflict)
    else
      var latest := LatestOfHand(db, c.roomId, c.handId);
      if latest.None? || latest.value.version != c.expectedVersion then (db, StaleSnapshot)
      else if !StacksValid(c.seatStacks) then (db, InvalidSeatStack)
      else if HandIndex(db.hands, c.handId) == |db.hands| then (db, HandMissing)
      else (Appended(db, c), Acked(OperationOf(c), true))
  }

  function Create(db: Db, c: CreateInput): (Db, CreateResult) {
    if HandIndex(db.hands, c.handId) < |db.hands| then (db, HandExists)
    else if !StacksValid(c.seatStacks) then (db, InvalidStartStack)
    else
      var number := HighestNumber(Filter(db.hands, InRoom(c.roomId))) + 1;
      var snapshot := Snapshot(c.roomId, c.handId, 0, c.state);
      (db.(hands := db.hands + [HandRow(c.handId, c.roomId, number, Some(c.deadline), InProgress)],
           snapshots := db.snapshots + [snapshot],
           seats := WithStacks(db.seats, c.roomId, c.seatStacks)),
       Created(snapshot))
  }

  /** The tables, written by transactions that either assign every changed table or none. */
  class Database {
    var hands: seq<HandRow>
    var snapshots: seq<Snapshot>
    var events: seq<EventRow>
    var operations: map<ActionId, Operation>
    var seats: map<(RoomId, PlayerId), int>
    var draining: set<RoomId>

    function Contents(): Db
      reads this
    {
      Db(hands, snapshots, events, operations, seats, draining)
    }

    constructor (seats: map<(RoomId, PlayerId), int>)
      ensures Contents() == Db([], [], [], map[], seats, {})
    {
      hands, snapshots, events, operations, draining := [], [], [], map[], {};
      this.seats := seats;
    }

    method SetRoomDraining(room: RoomId)
      modifies this
      ensures Contents() == old(Contents()).(draining := old(draining) + {room})
    {
      draining := draining + {room};
    }

    method UpdateSeats(room: RoomId, stacks: seq<SeatStack>) returns (r: Option<map<(RoomId, PlayerId), int>>)
      ensures StacksValid(stacks) ==> r == Some(WithStacks(seats, room, stacks))
      ensures !StacksValid(stacks) ==> r.None?
    {
      var updated := seats;
      for k := 0 to |stacks|
        invariant StacksValid(stacks[..k])
        invariant updated == WithStacks(seats, room, stacks[..k])
      {
        if stacks[k].stack < 0 {
          return None;
        }
        if (room, stacks[k].userId) in updated {
          updated := updated[(room, stacks[k].userId) := stacks[k].stack];
        }
        assert stacks[..k + 1][..k] == stacks[..k];
      }
      assert stacks[..|stacks|] == stacks;
      return Some(updated);
    }

    /** One row per event, numbered on from the last one of the hand. */
    method NumberEvents(c: CommitInput) returns (rows: seq<EventRow>)
      ensures rows == Rows(c.handId, LastSequence(EventsOf(Contents(), c.handId)), c.newVersion, c.events, c.actionId)
    {
      var last := LastSequence(EventsOf(Contents(), c.handId));
      var sequence := last;
      rows := [];
      for index := 0 to |c.events|
        invariant sequence == last + index
        invariant rows == Rows(c.handId, last, c.newVersion, c.events[..index], c.actionId)
      {
        sequence := sequence + 1;
        rows := rows + [EventRow(c.handId, sequence, c.newVersion, c.events[index],
                                 if index == 0 then Some(c.actionId) else None)];
        assert c.events[..index + 1] == c.events[..index] + [c.events[index]];
      }
      assert c.events[..|c.events|] == c.events;
    }

    method CreateDurableHand(c: CreateInput) returns (r: CreateResult)
      modifies this
      ensures (Contents(), r) == Create(old(Contents()), c)
    {
      if HandIndex(hands, c.handId) < |hands| {
        return HandExists;
      }
      var stacks := UpdateSeats(c.roomId, c.seatStacks);
      if stacks.None? {
        return InvalidStartStack;
      }
      var number := HighestNumber(Filter(hands, InRoom(c.roomId))) + 1;
      var snapshot := Snapshot(c.roomId, c.handId, 0, c.state);
      hands := hands + [HandRow(c.handId, c.roomId, number, Some(c.deadline), InProgress)];
      snapshots := snapshots + [snapshot];
      seats := stacks.value;
      return Created(snapshot);
    }

    method CommitDurableAction(c: CommitInput) returns (r: CommitResult)
      modifies this
      ensures (Contents(), r) == Commit(old(Contents()), c)
    {
      if c.actionId in operations {
        var existing := operations[c.actionId];
        if existing.kind != PlayerAction || existing.handId != c.handId || existing.userId != c.actorUserId
           || existing.roomId != c.roomId || existing.payloadHash != c.payloadHash {
          return ActionIdConflict;
        }
        return Acked(existing, false);
      }
      var snapshot := LatestOfHand(Contents(), c.roomId, c.handId);
      if snapshot.None? || snapshot.value.version != c.expectedVersion {
        return StaleSnapshot;
      }
      var rows := NumberEvents(c);
      var stacks := UpdateSeats(c.roomId, c.seatStacks);
      if stacks.None? {
        return InvalidSeatStack;
      }
      var i := HandIndex(hands, c.handId);
      if i == |hands| {
        return HandMissing;
      }
      operations := operations[c.actionId := OperationOf(c)];
      events := events + rows;
      snapshots := snapshots + [Snapshot(c.roomId, c.handId, c.newVersion, c.state)];
      seats := stacks.value;
      hands := hands[i := CloseHand(hands[i], c.deadline)];
      return Acked(OperationOf(c), true);
    }
  }
}

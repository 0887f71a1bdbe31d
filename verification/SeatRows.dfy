/** The seat rows and the numbers of hands: every commit brings the stacks of its players to their seats, and each room
    counts its hands. */
module SeatRows {
  import opened BettingInvariant
  import opened Board
  import opened DurableLog
  import opened DurableRuns
  import opened Game
  import opened Gateway
  import opened HandEvents
  import opened HandLogs
  import opened HandRecords
  import opened Recovery
  import opened Reducer
  import opened Sealing
  import opened Sequences
  import opened ServerSteps
  import opened Table
  import opened TableServers
  import opened Wrappers

  // ---- What a write does to the seats ----

  predicate Mentions(stacks: seq<SeatStack>, id: PlayerId) {
    exists i :: 0 <= i < |stacks| && stacks[i].userId == id
  }

  /** No seat comes or goes; a seat of the room that is mentioned gets the stack mentioned last for it, and every other
      seat, of this room or another, keeps its own. */
  lemma {:induction false} StacksWritten(seats: map<(RoomId, PlayerId), int>, room: RoomId, stacks: seq<SeatStack>)
    ensures var after := WithStacks(seats, room, stacks);
            && after.Keys == seats.Keys
            && (forall key | key in seats && (key.0 != room || !Mentions(stacks, key.1)) :: after[key] == seats[key])
            && (forall i | 0 <= i < |stacks| && (room, stacks[i].userId) in seats
                           && !Mentions(stacks[i + 1..], stacks[i].userId) ::
                  after[(room, stacks[i].userId)] == stacks[i].stack)
  {
    if |stacks| > 0 {
      var n := |stacks| - 1;
      var before, after := WithStacks(seats, room, stacks[..n]), WithStacks(seats, room, stacks);
      StacksWritten(seats, room, stacks[..n]);
      forall key | key in seats && (key.0 != room || !Mentions(stacks, key.1)) ensures after[key] == seats[key] {
        assert stacks[n].userId == key.1 ==> Mentions(stacks, key.1);
        if Mentions(stacks[..n], key.1) {
          var i :| 0 <= i < n && stacks[..n][i].userId == key.1;
          assert stacks[i].userId == key.1;
        }
      }
      forall i | 0 <= i < |stacks| && (room, stacks[i].userId) in seats
                 && !Mentions(stacks[i + 1..], stacks[i].userId)
        ensures after[(room, stacks[i].userId)] == stacks[i].stack
      {
        if i < n {
          assert stacks[i + 1..][n - i - 1] == stacks[n];
          assert stacks[n].userId != stacks[i].userId;
          MentionedBefore(stacks, i, n);
          assert stacks[..n][i] == stacks[i];
        }
      }
    }
  }

  lemma MentionedBefore(stacks: seq<SeatStack>, i: nat, n: nat)
    requires i < n < |stacks| && !Mentions(stacks[i + 1..], stacks[i].userId)
    ensures !Mentions(stacks[..n][i + 1..], stacks[i].userId)
  {
  }

  /** The players' seats in the room, where they have one, hold their stacks. */
  predicate SeatsHold(seats: map<(RoomId, PlayerId), int>, room: RoomId, ps: seq<Player>) {
    forall i | 0 <= i < |ps| :: SeatHolds(seats, room, ps[i])
  }

  predicate SeatHolds(seats: map<(RoomId, PlayerId), int>, room: RoomId, p: Player) {
    (room, p.id) in seats ==> seats[(room, p.id)] == p.stack
  }

  lemma PlayersWritten(seats: map<(RoomId, PlayerId), int>, room: RoomId, ps: seq<Player>)
    requires UniqueIds(ps)
    ensures SeatsHold(WithStacks(seats, room, StacksOf(ps)), room, ps)
  {
    var stacks := StacksOf(ps);
    StacksWritten(seats, room, stacks);
    forall i | 0 <= i < |ps| ensures SeatHolds(WithStacks(seats, room, stacks), room, ps[i]) {
      assert stacks[i] == SeatStack(ps[i].id, ps[i].stack);
      assert !Mentions(stacks[i + 1..], ps[i].id);
    }
  }

  // ---- One step ----

  /** The room's rows as they were, but for seats this event took. */
  predicate RoomKept(db: Db, event: ServerEvent, after: Db, room: RoomId) {
    && LatestOfRoom(after, room) == LatestOfRoom(db, room)
    && forall key | key in after.seats && key.0 == room && !(event.TakeSeat? && (event.room, event.user) == key) ::
         key in db.seats && after.seats[key] == db.seats[key]
  }

  /** The room's newest snapshot is new, and its players' seats hold its stacks. */
  predicate RoomWritten(after: Db, room: RoomId) {
    LatestOfRoom(after, room).Some? && SeatsHold(after.seats, room, LatestOfRoom(after, room).value.state.players)
  }

  lemma OtherRoom(db: Db, after: Db, room: RoomId, other: RoomId, s: Snapshot, stacks: seq<SeatStack>)
    requires after.snapshots == db.snapshots + [s] && s.roomId == other != room
    requires after.seats == WithStacks(db.seats, other, stacks)
    ensures forall event :: RoomKept(db, event, after, room)
  {
    FilterAppend(db.snapshots, s, OfRoom(room));
    StacksWritten(db.seats, other, stacks);
  }

  lemma ThisRoom(db: Db, after: Db, room: RoomId, s: Snapshot)
    requires after.snapshots == db.snapshots + [s] && s.roomId == room && UniqueIds(s.state.players)
    requires after.seats == WithStacks(db.seats, room, StacksOf(s.state.players))
    ensures RoomWritten(after, room)
  {
    FilterAppend(db.snapshots, s, OfRoom(room));
    PlayersWritten(db.seats, room, s.state.players);
  }

  lemma NamesDiffer(s: State, d: Deal)
    requires InGame(s, d)
    ensures UniqueIds(s.players)
  {
    InGameFacts(s, d);
    Unfold(s);
  }

  lemma CreateWrites(db: Db, c: CreateInput, room: RoomId, event: ServerEvent)
    requires c.seatStacks == StacksOf(c.state.players) && UniqueIds(c.state.players)
    ensures var after := Create(db, c).0; RoomKept(db, event, after, room) || RoomWritten(after, room)
  {
    var after := Create(db, c).0;
    if Create(db, c).1.Created? {
      var s := Snapshot(c.roomId, c.handId, 0, c.state);
      if room == c.roomId {
        ThisRoom(db, after, room, s);
      } else {
        OtherRoom(db, after, room, c.roomId, s, c.seatStacks);
      }
    }
  }

  lemma CommitWrites(db: Db, c: CommitInput, room: RoomId, event: ServerEvent)
    requires Commit(db, c).1 == Acked(OperationOf(c), true) && Commit(db, c).0 == Appended(db, c) ==>
               c.seatStacks == StacksOf(c.state.players) && UniqueIds(c.state.players)
    ensures var after := Commit(db, c).0; RoomKept(db, event, after, room) || RoomWritten(after, room)
  {
    var after := Commit(db, c).0;
    if after != db {
      var s := Snapshot(c.roomId, c.handId, c.newVersion, c.state);
      if room == c.roomId {
        ThisRoom(db, after, room, s);
      } else {
        OtherRoom(db, after, room, c.roomId, s, c.seatStacks);
      }
    }
  }

  /** What a handler is about to commit are the stacks of the state it commits. */
  lemma InputStacks(sys: System, logs: Logs, id: HandlerId)
    requires SystemOk(sys, logs) && id in sys.handlers && sys.handlers[id].stage.Committing?
    ensures var c := sys.handlers[id].stage.input;
            c.seatStacks == StacksOf(c.state.players) && UniqueIds(c.state.players)
  {
    var q, f, k := InputSource(sys, logs, id);
    var log := logs[q.handId];
    var d := KeptLog(sys.db, logs, q.handId);
    LogPlaysOn(log, d, k);
    PlaysOnFacts(log.start, StateAt(log, k), d);
    DecideFits(StateAt(log, k), q, d);
    NamesDiffer(f.state, d);
  }

  /** Only a commit touches snapshots or seats. */
  lemma NextWrites(db: Db, m: Memory, h: Handler)
    requires MemorySound(m) && RefOk(m, h.stage) && !h.stage.Committing?
    ensures var after := Next(db, m, h.job, h.stage).db;
            after.snapshots == db.snapshots && after.seats == db.seats && after.hands == db.hands
  {
  }

  lemma ProceedWrites(sys: System, logs: Logs, id: HandlerId, room: RoomId)
    requires SystemOk(sys, logs) && Enabled(sys, Proceed(id)) && Sound(sys)
    ensures var after := Advance(sys, Proceed(id)).db;
            RoomKept(sys.db, Proceed(id), after, room) || RoomWritten(after, room)
  {
    var h := sys.handlers[id];
    if h.stage.Committing? {
      InputStacks(sys, logs, id);
      CommitWrites(sys.db, h.stage.input, room, Proceed(id));
    } else {
      NextWrites(sys.db, MemoryOf(sys, h.server), h);
    }
  }

  lemma DealWrites(sys: System, server: ServerId, c: CreateInput, room: RoomId)
    requires Enabled(sys, DealHand(server, c)) && Sound(sys)
    ensures var after := Advance(sys, DealHand(server, c)).db;
            RoomKept(sys.db, DealHand(server, c), after, room) || RoomWritten(after, room)
  {
    var d :| StartOk(c.roomId, c.handId, c.state, d);
    NamesDiffer(c.state, d);
    CreateWrites(sys.db, c, room, DealHand(server, c));
  }

  /** Nothing else writes a snapshot, and seats only come and go. */
  lemma OtherSteps(sys: System, event: ServerEvent, room: RoomId)
    requires Enabled(sys, event) && Sound(sys) && !event.DealHand? && !event.Proceed?
    ensures RoomKept(sys.db, event, Advance(sys, event).db, room)
  {
  }

  lemma StepWrites(sys: System, logs: Logs, event: ServerEvent, room: RoomId)
    requires SystemOk(sys, logs) && Enabled(sys, event) && Sound(sys)
    ensures var after := Advance(sys, event).db; RoomKept(sys.db, event, after, room) || RoomWritten(after, room)
  {
    match event {
      case DealHand(server, c) => DealWrites(sys, server, c, room);
      case Proceed(id) => ProceedWrites(sys, logs, id, room);
      case _ => OtherSteps(sys, event, room);
    }
  }

  // ---- Runs ----

  /** The player took the seat anew while the room's newest snapshot was already the one it is now. */
  ghost predicate SatDownSince(states: seq<System>, events: seq<ServerEvent>, k: nat, room: RoomId, id: PlayerId)
    requires |states| == |events| + 1 && k < |states|
  {
    exists j: nat :: j < k && events[j].TakeSeat? && events[j].room == room && events[j].user == id
                     && LatestOfRoom(states[j + 1].db, room) == LatestOfRoom(states[k].db, room)
  }

  /** Over all runs the seat row of every player of a room's newest snapshot holds the stack the snapshot gives the
      player, but for a player who left the seat and took it anew since. */
  lemma {:induction false} SeatsFollowHand(states: seq<System>, events: seq<ServerEvent>, k: nat, room: RoomId, i: nat)
    requires SystemRun(states, events) && k < |states|
    requires LatestOfRoom(states[k].db, room).Some? && i < |LatestOfRoom(states[k].db, room).value.state.players|
    ensures var p := LatestOfRoom(states[k].db, room).value.state.players[i];
            SeatHolds(states[k].db.seats, room, p) || SatDownSince(states, events, k, room, p.id)
  {
    if k > 0 {
      var logs := RunKeepsSystem(states, events, k - 1);
      var event := events[k - 1];
      var after := TakesKeeps(states[k - 1], logs, event, states[k]);
      StepWrites(states[k - 1], logs, event, room);
      if !RoomWritten(states[k].db, room) {
        SeatsFollowHand(states, events, k - 1, room, i);
        SeatKept(states, events, k, room, i);
      }
    }
  }

  lemma SeatKept(states: seq<System>, events: seq<ServerEvent>, k: nat, room: RoomId, i: nat)
    requires |states| == |events| + 1 && 0 < k < |states|
    requires RoomKept(states[k - 1].db, events[k - 1], states[k].db, room)
    requires LatestOfRoom(states[k].db, room).Some? && i < |LatestOfRoom(states[k].db, room).value.state.players|
    requires var p := LatestOfRoom(states[k].db, room).value.state.players[i];
             SeatHolds(states[k - 1].db.seats, room, p) || SatDownSince(states, events, k - 1, room, p.id)
    ensures var p := LatestOfRoom(states[k].db, room).value.state.players[i];
            SeatHolds(states[k].db.seats, room, p) || SatDownSince(states, events, k, room, p.id)
  {
    var p := LatestOfRoom(states[k].db, room).value.state.players[i];
    if SatDownSince(states, events, k - 1, room, p.id) {
      var j: nat :| j < k - 1 && events[j].TakeSeat? && events[j].room == room && events[j].user == p.id
                    && LatestOfRoom(states[j + 1].db, room) == LatestOfRoom(states[k - 1].db, room);
    } else if !SeatHolds(states[k].db.seats, room, p) {
      var event := events[k - 1];
      assert event.TakeSeat? && event.room == room && event.user == p.id;
    }
  }

  // ---- Hand numbers ----

  /** Every hand's number counts the hands of its room up to it. */
  predicate HandsCounted(hands: seq<HandRow>) {
    forall k: nat | k < |hands| :: NumberAt(hands, k)
  }

  predicate NumberAt(hands: seq<HandRow>, k: nat)
    requires k < |hands|
  {
    hands[k].number == Count(hands[..k], InRoom(hands[k].roomId)) + 1
  }

  lemma {:induction false} HighestIsCount(hands: seq<HandRow>, room: RoomId)
    requires HandsCounted(hands)
    ensures HighestNumber(Filter(hands, InRoom(room))) == Count(hands, InRoom(room))
  {
    if |hands| > 0 {
      var n := |hands| - 1;
      forall k: nat | k < n ensures NumberAt(hands[..n], k) {
        assert NumberAt(hands, k);
        assert hands[..n][..k] == hands[..k];
      }
      HighestIsCount(hands[..n], room);
      assert NumberAt(hands, n);
      var before := Filter(hands[..n], InRoom(room));
      assert (before + [hands[n]])[..|before|] == before;
    }
  }

  lemma CreateCounts(db: Db, c: CreateInput)
    requires HandsCounted(db.hands)
    ensures HandsCounted(Create(db, c).0.hands)
  {
    var after := Create(db, c).0.hands;
    if after != db.hands {
      HighestIsCount(db.hands, c.roomId);
      forall k: nat | k < |after| ensures NumberAt(after, k) {
        assert after[..k] == db.hands[..k];
        assert k < |db.hands| ==> NumberAt(db.hands, k);
      }
    }
  }

  lemma CommitCounts(db: Db, c: CommitInput)
    requires HandsCounted(db.hands)
    ensures HandsCounted(Commit(db, c).0.hands)
  {
    var after := Commit(db, c).0.hands;
    assert |after| == |db.hands|;
    forall k: nat | k < |after| ensures NumberAt(after, k) {
      assert NumberAt(db.hands, k);
      CountMatches(db.hands[..k], InRoom(after[k].roomId), after[..k], InRoom(after[k].roomId));
    }
  }

  lemma StepCounts(sys: System, event: ServerEvent)
    requires Enabled(sys, event) && Sound(sys) && HandsCounted(sys.db.hands)
    ensures HandsCounted(Advance(sys, event).db.hands)
  {
    match event {
      case DealHand(_, c) => CreateCounts(sys.db, c);
      case Proceed(id) =>
        if sys.handlers[id].stage.Committing? {
          CommitCounts(sys.db, sys.handlers[id].stage.input);
        }
      case _ =>
    }
  }

  /** Over all runs the hands of a room are numbered 1, 2, 3 and so on in the order in which they were dealt. */
  lemma {:induction false} HandsAreNumbered(states: seq<System>, events: seq<ServerEvent>, k: nat)
    requires SystemRun(states, events) && k < |states|
    ensures HandsCounted(states[k].db.hands)
  {
    if k > 0 {
      HandsAreNumbered(states, events, k - 1);
      var logs := RunKeepsSystem(states, events, k - 1);
      var after := TakesKeeps(states[k - 1], logs, events[k - 1], states[k]);
      StepCounts(states[k - 1], events[k - 1]);
    }
  }
}

/** The record of one hand as the commit protocol writes it, and why recovery accepts it. */
module HandLogs {
  import opened BettingInvariant
  import opened Board
  import opened DurableLog
  import opened Game
  import opened Gateway
  import opened HandEvents
  import opened Invariants
  import opened Recovery
  import opened Sealing
  import opened Sequences
  import opened Table
  import opened Wrappers

  /** One committed action: the state it led to, its events and its id. */
  datatype Entry = Entry(state: State, events: seq<GameEvent>, actionId: ActionId)

  /** A hand from its dealt state through its committed actions. */
  datatype Log = Log(room: RoomId, hand: HandId, start: State, entries: seq<Entry>, deadline: Option<Deadline>)

  function StateAt(log: Log, k: nat): State
    requires k <= |log.entries|
  {
    if k == 0 then log.start else log.entries[k - 1].state
  }

  function LastState(log: Log): State { StateAt(log, |log.entries|) }

  /** A dealt hand that can be played: the first version of a live state with named players. */
  ghost predicate StartOk(room: RoomId, hand: HandId, s: State, d: Deal) {
    && InGame(s, d) && NamesOk(s.players)
    && s.version == 0 && s.tableId == room && s.handId == hand && s.phase != Complete
  }

  ghost predicate Decided(s: State, e: Entry) {
    forall k {:trigger Open(DecidedSeal, k)} :: Open(DecidedSeal, k) ==>
      Playable(s) && exists q: Request :: q.actionId == e.actionId && Decide(s, q) == Ok(Finalized(e.state, e.events))
  }

  /** Each state of the log is the engine's answer to some request in the state before it. */
  ghost predicate LogOk(log: Log, d: Deal) {
    forall k {:trigger Open(LogSeal, k)} :: Open(LogSeal, k) ==> LogHolds(log, d)
  }

  ghost predicate LogHolds(log: Log, d: Deal) {
    && StartOk(log.room, log.hand, log.start, d)
    && forall k: nat | k < |log.entries| :: DecidedAt(log, k)
  }

  lemma LogEntry(log: Log, d: Deal, k: nat)
    requires LogOk(log, d) && k < |log.entries|
    ensures DecidedAt(log, k)
  {
    assert Open(LogSeal, 0);
  }

  lemma LogStart(log: Log, d: Deal)
    requires LogOk(log, d)
    ensures StartOk(log.room, log.hand, log.start, d)
  {
    assert Open(LogSeal, 0);
  }

  ghost predicate DecidedAt(log: Log, k: nat)
    requires k < |log.entries|
  {
    Decided(StateAt(log, k), log.entries[k])
  }

  predicate Shaped(log: Log) {
    && log.start.version == 0
    && forall k: nat | k < |log.entries| :: ShapedAt(log, k)
  }

  predicate ShapedAt(log: Log, k: nat)
    requires k < |log.entries|
  {
    StepShaped(StateAt(log, k), log.entries[k])
  }

  predicate StepShaped(s: State, e: Entry) {
    s.phase != Complete && DecisionShape(s, Finalized(e.state, e.events))
  }

  predicate SameHand(s: State, t: State) {
    SameIds(s.players, t.players) && t.tableId == s.tableId && t.handId == s.handId
  }

  ghost predicate PlaysOn(start: State, s: State, d: Deal) {
    forall k {:trigger Open(PlaysOnSeal, k)} :: Open(PlaysOnSeal, k) ==>
      InGame(s, d) && NamesOk(s.players) && SameHand(start, s)
  }

  lemma PlaysOnFacts(start: State, s: State, d: Deal)
    requires PlaysOn(start, s, d)
    ensures InGame(s, d) && NamesOk(s.players) && SameHand(start, s)
  {
    assert Open(PlaysOnSeal, 0);
  }

  lemma DecidedStep(start: State, s: State, e: Entry, d: Deal)
    requires PlaysOn(start, s, d) && Decided(s, e)
    ensures PlaysOn(start, e.state, d) && StepShaped(s, e)
  {
    assert Open(DecidedSeal, 0);
    PlaysOnFacts(start, s, d);
    var q: Request :| q.actionId == e.actionId && Decide(s, q) == Ok(Finalized(e.state, e.events));
    DecideFits(s, q, d);
  }

  lemma StartPlaysOn(room: RoomId, hand: HandId, s: State, d: Deal)
    requires StartOk(room, hand, s, d)
    ensures PlaysOn(s, s, d)
  {
  }

  lemma EntryPlaysOn(log: Log, d: Deal, k: nat)
    requires k < |log.entries| && PlaysOn(log.start, StateAt(log, k), d) && DecidedAt(log, k)
    ensures PlaysOn(log.start, StateAt(log, k + 1), d)
  {
    DecidedStep(log.start, StateAt(log, k), log.entries[k], d);
  }

  lemma {:induction false} LogPlaysOn(log: Log, d: Deal, k: nat)
    requires LogOk(log, d) && k <= |log.entries|
    ensures PlaysOn(log.start, StateAt(log, k), d)
  {
    if k == 0 {
      LogStart(log, d);
      StartPlaysOn(log.room, log.hand, log.start, d);
    } else {
      LogPlaysOn(log, d, k - 1);
      LogEntry(log, d, k - 1);
      EntryPlaysOn(log, d, k - 1);
    }
  }

  lemma LogShaped(log: Log, d: Deal)
    requires LogOk(log, d)
    ensures Shaped(log)
  {
    LogStart(log, d);
    forall k: nat | k < |log.entries| ensures ShapedAt(log, k) {
      LogPlaysOn(log, d, k);
      LogEntry(log, d, k);
      DecidedStep(log.start, StateAt(log, k), log.entries[k], d);
    }
  }

  // ---- The rows of a log ----

  /** How many rows the first k entries have. */
  function RowCount(log: Log, k: nat): nat
    requires k <= |log.entries|
  {
    if k == 0 then 0 else RowCount(log, k - 1) + |log.entries[k - 1].events|
  }

  function EventRows(log: Log, k: nat): seq<EventRow>
    requires k <= |log.entries|
  {
    if k == 0 then []
    else EventRows(log, k - 1) + EntryRows(log, k - 1)
  }

  /** The rows of entry k, numbered on from those of the entries before it. */
  function EntryRows(log: Log, k: nat): (r: seq<EventRow>)
    requires k < |log.entries|
    ensures |r| == |log.entries[k].events|
  {
    var e := log.entries[k];
    Rows(log.hand, RowCount(log, k), e.state.version, e.events, e.actionId)
  }

  lemma {:induction false} RowsCounted(log: Log, k: nat)
    requires k <= |log.entries|
    ensures |EventRows(log, k)| == RowCount(log, k)
  {
    if k > 0 {
      RowsCounted(log, k - 1);
    }
  }

  function SnapshotRows(log: Log, k: nat): (r: seq<Snapshot>)
    requires k <= |log.entries|
    ensures |r| == k + 1
    ensures r[k] == Snapshot(log.room, log.hand, if k == 0 then 0 else StateAt(log, k).version, StateAt(log, k))
  {
    if k == 0 then [Snapshot(log.room, log.hand, 0, log.start)]
    else SnapshotRows(log, k - 1)
         + [Snapshot(log.room, log.hand, StateAt(log, k).version, StateAt(log, k))]
  }

  /** Sequence numbers count the rows from 1 without a gap. */
  lemma {:induction false} Gapless(log: Log, k: nat)
    requires k <= |log.entries|
    ensures forall i | 0 <= i < |EventRows(log, k)| ::
              EventRows(log, k)[i].sequence == i + 1 && EventRows(log, k)[i].handId == log.hand
  {
    if k > 0 {
      Gapless(log, k - 1);
      RowsCounted(log, k - 1);
      var before, rows := EventRows(log, k - 1), EntryRows(log, k - 1);
      var all := EventRows(log, k);
      assert all == before + rows;
      forall i | 0 <= i < |all| ensures all[i].sequence == i + 1 && all[i].handId == log.hand {
        if i >= |before| {
          assert all[i] == rows[i - |before|];
        }
      }
    }
  }

  lemma {:induction false} LastIsLength(rows: seq<EventRow>)
    requires forall i | 0 <= i < |rows| :: rows[i].sequence == i + 1
    ensures LastSequence(rows) == |rows|
  {
    if |rows| > 0 {
      assert forall i | 0 <= i < |rows| - 1 :: rows[..|rows| - 1][i] == rows[i];
      LastIsLength(rows[..|rows| - 1]);
    }
  }

  lemma {:induction false} VersionsGrow(log: Log, j: nat, k: nat)
    requires Shaped(log) && j < k <= |log.entries|
    ensures StateAt(log, j).version < StateAt(log, k).version
  {
    assert ShapedAt(log, k - 1);
    if j < k - 1 {
      VersionsGrow(log, j, k - 1);
    }
  }

  lemma NewestAppend(rows: seq<Snapshot>, row: Snapshot)
    requires Newest(rows).Some? && Newest(rows).value.version < row.version
    ensures Newest(rows + [row]) == Some(row)
  {
    assert (rows + [row])[..|rows|] == rows;
  }

  lemma NewestStep(log: Log, k: nat)
    requires log.start.version == 0 && k < |log.entries|
    requires Newest(SnapshotRows(log, k)) == Some(SnapshotRows(log, k)[k])
    requires StateAt(log, k).version < StateAt(log, k + 1).version
    ensures Newest(SnapshotRows(log, k + 1)) == Some(SnapshotRows(log, k + 1)[k + 1])
  {
    NewestAppend(SnapshotRows(log, k),
                 Snapshot(log.room, log.hand, StateAt(log, k + 1).version, StateAt(log, k + 1)));
  }

  /** The newest snapshot is the last state of the log. */
  lemma {:induction false} NewestIsLast(log: Log, k: nat)
    requires Shaped(log) && k <= |log.entries|
    ensures Newest(SnapshotRows(log, k)) == Some(SnapshotRows(log, k)[k])
  {
    if k > 0 {
      NewestIsLast(log, k - 1);
      VersionsGrow(log, k - 1, k);
      NewestStep(log, k - 1);
    }
  }

  // ---- Replaying the rows ----

  lemma EntryRowsAt(log: Log, k: nat, j: nat)
    requires Shaped(log) && k < |log.entries| && j < |log.entries|
    ensures Filter(EntryRows(log, k), AtVersion(log.entries[j].state.version))
            == if k == j then EntryRows(log, j) else []
  {
    var at := AtVersion(log.entries[j].state.version);
    if k == j {
      FilterAll(EntryRows(log, k), at);
    } else {
      VersionsDiffer(log, k, j);
      FilterNone(EntryRows(log, k), at);
    }
  }

  function EntryPart(log: Log): nat -> seq<EventRow> {
    (k: nat) => if k < |log.entries| then EntryRows(log, k) else []
  }

  lemma {:induction false} RowsFlatten(log: Log, k: nat)
    requires k <= |log.entries|
    ensures EventRows(log, k) == Flatten(EntryPart(log), k)
  {
    if k > 0 {
      RowsFlatten(log, k - 1);
    }
  }

  /** The rows at the version of entry j are exactly that entry's rows. */
  lemma RowsAtVersion(log: Log, j: nat)
    requires Shaped(log) && j < |log.entries|
    ensures Filter(EventRows(log, |log.entries|), AtVersion(log.entries[j].state.version)) == EntryRows(log, j)
  {
    var at := AtVersion(log.entries[j].state.version);
    RowsFlatten(log, |log.entries|);
    forall i: nat | i < |log.entries|
      ensures Filter(EntryPart(log)(i), at) == if i == j then EntryPart(log)(j) else []
    {
      EntryRowsAt(log, i, j);
    }
    FilterOnePart(EntryPart(log), |log.entries|, at, j);
  }

  lemma VersionsDiffer(log: Log, i: nat, j: nat)
    requires Shaped(log) && i < |log.entries| && j < |log.entries| && i != j
    ensures log.entries[i].state.version != log.entries[j].state.version
  {
    if i < j {
      VersionsGrow(log, i + 1, j + 1);
    } else {
      VersionsGrow(log, j + 1, i + 1);
    }
  }

  lemma OneSettlement(rows: seq<EventRow>)
    requires |rows| >= 2 && IsSettlement(rows[|rows| - 1])
    requires forall i | 0 <= i < |rows| - 1 :: !IsSettlement(rows[i])
    ensures Count(rows, IsSettlement) == 1
  {
    var before := rows[..|rows| - 1];
    CountNone(before, IsSettlement);
    assert rows == before + [rows[|rows| - 1]];
    CountAppend(before, rows[|rows| - 1], IsSettlement);
  }

  /** A version skipped over is the version of a settlement paired with the action that ended the hand. */
  lemma SkipIsPaired(log: Log, j: nat)
    requires Shaped(log) && j < |log.entries|
    requires log.entries[j].state.version == StateAt(log, j).version + 2
    ensures PairedSettlement(EventRows(log, |log.entries|), log.entries[j].state.version)
  {
    assert ShapedAt(log, j);
    RowsAtVersion(log, j);
    OneSettlement(EntryRows(log, j));
  }

  lemma {:induction false} RowAt(log: Log, n: nat, j: nat, x: nat)
    requires j < n <= |log.entries| && x < |log.entries[j].events|
    ensures |EventRows(log, j)| + x < |EventRows(log, n)|
    ensures EventRows(log, n)[|EventRows(log, j)| + x] == EntryRows(log, j)[x]
  {
    if j < n - 1 {
      RowAt(log, n - 1, j, x);
    }
  }

  lemma OwnersMove(ps: seq<Player>, qs: seq<Player>, e: GameEvent)
    requires SameIds(ps, qs) && EventFine(ps, e)
    ensures EventFine(qs, e)
  {
    match e {
      case HandSettled(_, _, stacks) =>
        forall id | id in stacks ensures IsPlayer(qs, id) {
          SamePlayers(ps, qs, id);
        }
      case Move(m) =>
        if !m.StreetCompleted? {
          SamePlayers(ps, qs, m.playerId);
        }
    }
  }

  /** The players a log names are the same throughout. */
  ghost predicate Named(log: Log, ps: seq<Player>) {
    forall k: nat | k < |log.entries| :: NamedAt(log, k, ps)
  }

  predicate NamedAt(log: Log, k: nat, ps: seq<Player>)
    requires k < |log.entries|
  {
    SameIds(StateAt(log, k).players, ps)
  }

  lemma RowAccepted(log: Log, ps: seq<Player>, j: nat, x: nat)
    requires Shaped(log) && Named(log, ps) && j < |log.entries| && x < |log.entries[j].events|
    ensures |EventRows(log, j)| + x < |EventRows(log, |log.entries|)|
    ensures RowOk(EventRows(log, |log.entries|), ps,
                  if x == 0 then StateAt(log, j).version else log.entries[j].state.version,
                  |EventRows(log, j)| + x)
    ensures EventRows(log, |log.entries|)[|EventRows(log, j)| + x].version == log.entries[j].state.version
  {
    var e := log.entries[j];
    assert ShapedAt(log, j);
    RowAt(log, |log.entries|, j, x);
    RowsCounted(log, j);
    if e.state.version == StateAt(log, j).version + 2 {
      SkipIsPaired(log, j);
    }
    assert NamedAt(log, j, ps);
    OwnersMove(StateAt(log, j).players, ps, e.events[x]);
  }

  /** Replay accepts every row and arrives at the version of the entry it has reached. */
  lemma {:induction false} ReplayAccepts(log: Log, ps: seq<Player>, j: nat, x: nat)
    requires Shaped(log) && Named(log, ps) && j < |log.entries| && x <= |log.entries[j].events|
    ensures |EventRows(log, j)| + x <= |EventRows(log, |log.entries|)|
    ensures Replay(EventRows(log, |log.entries|), ps, |EventRows(log, j)| + x)
            == Some(if x == 0 then StateAt(log, j).version else log.entries[j].state.version)
    decreases j, x
  {
    assert ShapedAt(log, j);
    if x > 0 {
      RowAccepted(log, ps, j, x - 1);
      ReplayAccepts(log, ps, j, x - 1);
    } else if j > 0 {
      assert ShapedAt(log, j - 1);
      ReplayAccepts(log, ps, j - 1, |log.entries[j - 1].events|);
    }
  }

  /** The whole history replays to the last state's version. */
  lemma HistoryReplays(log: Log, s: Snapshot)
    requires Shaped(log) && Named(log, s.state.players)
    requires s.version == LastState(log).version
    ensures HistoryOk(s, EventRows(log, |log.entries|))
  {
    var n := |log.entries|;
    if n > 0 {
      ReplayAccepts(log, s.state.players, n - 1, |log.entries[n - 1].events|);
      assert ShapedAt(log, n - 1);
    }
  }

  /** Of all states of a log, the history confirms only the last: a snapshot read before a later entry is refused. */
  lemma OnlyLastReplays(log: Log, k: nat, s: Snapshot)
    requires Shaped(log) && Named(log, s.state.players) && k <= |log.entries|
    requires s.version == StateAt(log, k).version
    ensures HistoryOk(s, EventRows(log, |log.entries|)) <==> k == |log.entries|
  {
    var n := |log.entries|;
    if k == n {
      HistoryReplays(log, s);
    } else {
      ReplayAccepts(log, s.state.players, n - 1, |log.entries[n - 1].events|);
      assert ShapedAt(log, n - 1);
      VersionsGrow(log, k, n);
    }
  }
}

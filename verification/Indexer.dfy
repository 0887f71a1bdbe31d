/** The deposit indexer: scanning a chain in ranges, and stepping back to a common ancestor after a reorganisation. */
module Indexer {
  import opened ChainStore
  import opened Ledger
  import opened Sequences
  import opened Wrappers

  // ---- What a chain says ----

  /** Deposit ids are unique along a chain and amounts are positive. */
  predicate ChainOk(chain: seq<Block>) {
    && (forall n, i | 0 <= n < |chain| && 0 <= i < |chain[n].deposits| :: chain[n].deposits[i].amount > 0)
    && (forall n, i, m, j |
          0 <= n < |chain| && 0 <= i < |chain[n].deposits| && 0 <= m < |chain| && 0 <= j < |chain[m].deposits| ::
          chain[n].deposits[i].id == chain[m].deposits[j].id ==> n == m && i == j)
  }

  /** What is recorded of a deposit, apart from who is credited. */
  datatype View = View(id: DepositId, number: nat, hash: BlockHash, amount: int)

  function ViewOf(e: DepositEvent): View { View(e.id, e.number, e.hash, e.amount) }

  function InputView(d: DepositInput): View { View(d.id, d.number, d.hash, d.amount) }

  /** The deposits on record that have not been reorged away. */
  function LiveViews(events: seq<DepositEvent>): set<View> {
    set k: nat | k < |events| && Live(events[k]) :: ViewOf(events[k])
  }

  function LogView(chain: seq<Block>, n: nat, i: nat): View
    requires n < |chain| && i < |chain[n].deposits|
  {
    View(chain[n].deposits[i].id, n, chain[..n + 1], chain[n].deposits[i].amount)
  }

  /** The deposits of a chain from the start block on: what a scan from scratch records. */
  function ChainViews(chain: seq<Block>, start: nat): set<View> {
    set n: nat, i: nat | start <= n < |chain| && i < |chain[n].deposits| :: LogView(chain, n, i)
  }

  predicate UniqueEvents(events: seq<DepositEvent>) {
    forall i, j | 0 <= i < j < |events| :: events[i].id != events[j].id
  }

  /** The chain up to the checkpoint. */
  function Tip(db: ChainDb): BlockHash { if db.checkpoint.Some? then db.checkpoint.value.hash else [] }

  /** The first block not yet scanned. */
  function NextBlock(db: ChainDb, start: nat): nat {
    if db.checkpoint.Some? then db.checkpoint.value.number + 1 else start
  }

  predicate CheckpointOk(c: Checkpoint, start: nat) {
    start <= c.number && |c.hash| == c.number + 1
  }

  predicate HistoryOf(history: map<nat, BlockHash>, tip: BlockHash, start: nat) {
    forall n | n in history :: start <= n < |tip| && history[n] == tip[..n + 1]
  }

  /** Rows whose wallet the indexer vouches for: credited ones, and those never reorganised. */
  predicate Vouched(e: DepositEvent) { e.status == Credited || e.revision == 0 }

  /** The chain has this row's deposit at its block, made by the row's wallet. */
  predicate WalletOnChain(chain: seq<Block>, e: DepositEvent) {
    && e.number < |chain|
    && exists i :: 0 <= i < |chain[e.number].deposits|
                   && chain[e.number].deposits[i].id == e.id && chain[e.number].deposits[i].wallet == e.wallet
  }

  predicate RowOwned(chain: seq<Block>, e: DepositEvent) {
    && (Live(e) && Vouched(e) ==> WalletOnChain(chain, e))
    && (!Live(e) ==> e.revision > 0)
  }

  /** Every live vouched row names the wallet of the deposit it stands for. */
  predicate Owned(events: seq<DepositEvent>, chain: seq<Block>) {
    forall k: nat | k < |events| :: RowOwned(chain, events[k])
  }

  /** The live events are exactly the deposits of the checkpoint's chain, with their wallets where vouched for, and
      every checkpoint in the history is a block of that chain. */
  ghost predicate Synced(db: ChainDb, start: nat) {
    && UniqueEvents(db.events)
    && ChainOk(Tip(db))
    && (db.checkpoint.Some? ==> CheckpointOk(db.checkpoint.value, start))
    && LiveViews(db.events) == ChainViews(Tip(db), start)
    && Owned(db.events, Tip(db))
    && HistoryOf(db.history, Tip(db), start)
  }

  // ---- Crediting a range ----

  predicate NotLive(events: seq<DepositEvent>, id: DepositId) {
    forall k | 0 <= k < |events| :: events[k].id == id ==> !Live(events[k])
  }

  lemma CreditView(db: ChainDb, d: DepositInput)
    requires UniqueEvents(db.events) && NotLive(db.events, d.id) && Credit(db, d).Ok?
    ensures var after := Credit(db, d).value;
            && UniqueEvents(after.events)
            && LiveViews(after.events) == LiveViews(db.events) + {InputView(d)}
            && after.(events := db.events, ledger := db.ledger) == db
  {
    var i := EventIndex(db.events, d.id);
    var after := Credit(db, d).value;
    var row := after.events[i];
    assert after.events == Upsert(db.events, i, row);
    assert Live(row) && ViewOf(row) == InputView(d);
    UpsertViews(db.events, i, row);
  }

  lemma UpsertViews(events: seq<DepositEvent>, i: nat, row: DepositEvent)
    requires i <= |events| && UniqueEvents(events) && Live(row)
    requires i < |events| ==> events[i].id == row.id && !Live(events[i])
    requires i == |events| ==> forall k | 0 <= k < |events| :: events[k].id != row.id
    ensures UniqueEvents(Upsert(events, i, row))
    ensures LiveViews(Upsert(events, i, row)) == LiveViews(events) + {ViewOf(row)}
  {
    var after := Upsert(events, i, row);
    forall v | v in LiveViews(events) + {ViewOf(row)} ensures v in LiveViews(after) {
      if v == ViewOf(row) {
        assert after[i] == row;
      } else {
        var k: nat :| k < |events| && Live(events[k]) && v == ViewOf(events[k]);
        assert after[k] == events[k];
      }
    }
  }

  predicate DistinctInputs(ds: seq<DepositInput>) {
    forall i, j | 0 <= i < j < |ds| :: ds[i].id != ds[j].id
  }

  function InputViews(ds: seq<DepositInput>): set<View> {
    set k: nat | k < |ds| :: InputView(ds[k])
  }

  lemma NotLiveViews(events: seq<DepositEvent>, id: DepositId)
    ensures NotLive(events, id) <==> forall v | v in LiveViews(events) :: v.id != id
  {
    assert forall k: nat | k < |events| && Live(events[k]) :: ViewOf(events[k]) in LiveViews(events);
  }

  /** Crediting new deposits adds exactly their views. */
  lemma {:induction false} CreditAllViews(db: ChainDb, ds: seq<DepositInput>)
    requires UniqueEvents(db.events) && DistinctInputs(ds) && CreditAll(db, ds).Ok?
    requires forall k | 0 <= k < |ds| :: NotLive(db.events, ds[k].id)
    ensures var after := CreditAll(db, ds).value;
            && UniqueEvents(after.events)
            && LiveViews(after.events) == LiveViews(db.events) + InputViews(ds)
            && after.(events := db.events, ledger := db.ledger) == db
  {
    if |ds| > 0 {
      var n := |ds| - 1;
      assert forall k | 0 <= k < n :: ds[..n][k] == ds[k];
      CreditAllViews(db, ds[..n]);
      var before := CreditAll(db, ds[..n]).value;
      NotLiveViews(db.events, ds[n].id);
      NotLiveViews(before.events, ds[n].id);
      CreditView(before, ds[n]);
      assert InputViews(ds) == InputViews(ds[..n]) + {InputView(ds[n])};
    }
  }

  /** The input stands for a deposit of the chain. */
  predicate InputOnChain(chain: seq<Block>, d: DepositInput) {
    && d.number < |chain|
    && exists i :: 0 <= i < |chain[d.number].deposits|
                   && chain[d.number].deposits[i].id == d.id && chain[d.number].deposits[i].wallet == d.wallet
  }

  /** Crediting a deposit of the chain keeps every vouched wallet right. */
  lemma CreditOwned(db: ChainDb, d: DepositInput, chain: seq<Block>)
    requires Owned(db.events, chain) && InputOnChain(chain, d) && Credit(db, d).Ok?
    ensures Owned(Credit(db, d).value.events, chain)
  {
    var i := EventIndex(db.events, d.id);
    var after := Credit(db, d).value;
    forall k: nat | k < |after.events| ensures RowOwned(chain, after.events[k]) {
      if k < |db.events| {
        assert RowOwned(chain, db.events[k]);
      }
    }
  }

  lemma {:induction false} CreditAllOwned(db: ChainDb, ds: seq<DepositInput>, chain: seq<Block>)
    requires Owned(db.events, chain) && CreditAll(db, ds).Ok?
    requires forall k | 0 <= k < |ds| :: InputOnChain(chain, ds[k])
    ensures Owned(CreditAll(db, ds).value.events, chain)
  {
    if |ds| > 0 {
      assert forall k | 0 <= k < |ds| - 1 :: ds[..|ds| - 1][k] == ds[k];
      CreditAllOwned(db, ds[..|ds| - 1], chain);
      CreditOwned(CreditAll(db, ds[..|ds| - 1]).value, ds[|ds| - 1], chain);
    }
  }

  // ---- The logs of a range ----

  datatype ChainLog = ChainLog(number: nat, hash: BlockHash, deposit: Deposit)

  function BlockLogs(chain: seq<Block>, n: nat): (r: seq<ChainLog>)
    requires n < |chain|
    ensures |r| == |chain[n].deposits|
    ensures forall i | 0 <= i < |r| :: r[i] == ChainLog(n, chain[..n + 1], chain[n].deposits[i])
  {
    seq(|chain[n].deposits|, i requires 0 <= i < |chain[n].deposits| =>
          ChainLog(n, chain[..n + 1], chain[n].deposits[i]))
  }

  /** The deposit logs of the blocks from `from` up to but not including `end`, in order. */
  function LogsIn(chain: seq<Block>, from: nat, end: nat): seq<ChainLog>
    requires end <= |chain|
  {
    if end <= from then [] else LogsIn(chain, from, end - 1) + BlockLogs(chain, end - 1)
  }

  function InputOf(contract: string, log: ChainLog): DepositInput {
    DepositInput(log.deposit.id, log.number, log.hash, log.deposit.wallet, log.deposit.amount,
                 TreasuryAccount(contract), EscrowAccount(log.deposit.wallet))
  }

  function InputsOf(contract: string, logs: seq<ChainLog>): (r: seq<DepositInput>)
    ensures |r| == |logs|
    ensures forall i | 0 <= i < |r| :: r[i] == InputOf(contract, logs[i])
  {
    seq(|logs|, i requires 0 <= i < |logs| => InputOf(contract, logs[i]))
  }

  predicate LogFrom(chain: seq<Block>, log: ChainLog, from: nat, end: nat) {
    && from <= log.number < end <= |chain|
    && log.hash == chain[..log.number + 1]
    && exists i :: 0 <= i < |chain[log.number].deposits| && log.deposit == chain[log.number].deposits[i]
  }

  lemma {:induction false} LogsInMeaning(chain: seq<Block>, from: nat, end: nat)
    requires end <= |chain|
    ensures forall log :: log in LogsIn(chain, from, end) <==> LogFrom(chain, log, from, end)
  {
    if from < end {
      LogsInMeaning(chain, from, end - 1);
      var before, last := LogsIn(chain, from, end - 1), BlockLogs(chain, end - 1);
      forall log ensures log in before + last <==> LogFrom(chain, log, from, end) {
        if LogFrom(chain, log, from, end) && log.number == end - 1 {
          var i :| 0 <= i < |chain[log.number].deposits| && log.deposit == chain[log.number].deposits[i];
          assert last[i] == log;
        }
      }
    }
  }

  lemma {:induction false} LogsDistinct(chain: seq<Block>, from: nat, end: nat)
    requires ChainOk(chain) && end <= |chain|
    ensures forall a, b | 0 <= a < b < |LogsIn(chain, from, end)| ::
              LogsIn(chain, from, end)[a].deposit.id != LogsIn(chain, from, end)[b].deposit.id
  {
    if from < end {
      LogsDistinct(chain, from, end - 1);
      LogsInMeaning(chain, from, end - 1);
      var before, last := LogsIn(chain, from, end - 1), BlockLogs(chain, end - 1);
      forall a, b | 0 <= a < |before| && 0 <= b < |last| ensures before[a].deposit.id != last[b].deposit.id {
        assert before[a] in before;
        var log := before[a];
        var i :| 0 <= i < |chain[log.number].deposits| && log.deposit == chain[log.number].deposits[i];
      }
    }
  }

  /** A chain's views up to one block are among its views up to a later one. */
  lemma ViewsExtend(chain: seq<Block>, start: nat, from: nat, end: nat)
    requires from <= end <= |chain|
    ensures ChainViews(chain[..from], start) <= ChainViews(chain[..end], start)
  {
    var low, all := chain[..from], chain[..end];
    forall v | v in ChainViews(low, start) ensures v in ChainViews(all, start) {
      var n: nat, i: nat :| start <= n < |low| && i < |low[n].deposits| && v == LogView(low, n, i);
      assert all[..n + 1] == low[..n + 1];
      assert v == LogView(all, n, i);
    }
  }

  lemma RangeAdds(chain: seq<Block>, start: nat, from: nat, end: nat, contract: string)
    requires start <= from <= end <= |chain|
    ensures InputViews(InputsOf(contract, LogsIn(chain, from, end))) <= ChainViews(chain[..end], start)
  {
    LogsInMeaning(chain, from, end);
    var logs := LogsIn(chain, from, end);
    var inputs, all := InputsOf(contract, logs), chain[..end];
    forall v | v in InputViews(inputs) ensures v in ChainViews(all, start) {
      var k: nat :| k < |inputs| && v == InputView(inputs[k]);
      assert logs[k] in logs;
      var log := logs[k];
      var i: nat :| i < |chain[log.number].deposits| && log.deposit == chain[log.number].deposits[i];
      assert all[..log.number + 1] == chain[..log.number + 1];
      assert v == LogView(all, log.number, i);
    }
  }

  /** Scanning a range completes the views of the chain up to its end. */
  lemma RangeViews(chain: seq<Block>, start: nat, from: nat, end: nat, contract: string)
    requires start <= from <= end <= |chain|
    ensures ChainViews(chain[..end], start)
            == ChainViews(chain[..from], start) + InputViews(InputsOf(contract, LogsIn(chain, from, end)))
  {
    ViewsExtend(chain, start, from, end);
    RangeAdds(chain, start, from, end, contract);
    LogsInMeaning(chain, from, end);
    var logs := LogsIn(chain, from, end);
    var inputs, low, all := InputsOf(contract, logs), chain[..from], chain[..end];
    forall v | v in ChainViews(all, start) ensures v in ChainViews(low, start) + InputViews(inputs) {
      var n: nat, i: nat :| start <= n < |all| && i < |all[n].deposits| && v == LogView(all, n, i);
      assert all[..n + 1] == chain[..n + 1];
      if n < from {
        assert low[..n + 1] == chain[..n + 1];
        assert v == LogView(low, n, i);
      } else {
        var log := ChainLog(n, chain[..n + 1], chain[n].deposits[i]);
        assert log in logs;
        var k :| 0 <= k < |logs| && logs[k] == log;
        assert v == InputView(inputs[k]);
      }
    }
  }

  // ---- Commits keep the record in step with a chain ----

  predicate Agrees(tip: BlockHash, chain: seq<Block>) {
    |tip| <= |chain| && tip == chain[..|tip|]
  }

  lemma LaterIdsDiffer(tip: BlockHash, start: nat, chain: seq<Block>, n: nat, i: nat)
    requires ChainOk(chain) && Agrees(tip, chain) && |tip| <= n < |chain| && i < |chain[n].deposits|
    ensures forall v | v in ChainViews(tip, start) :: v.id != chain[n].deposits[i].id
  {
    forall v | v in ChainViews(tip, start) ensures v.id != chain[n].deposits[i].id {
      var m: nat, j: nat :| start <= m < |tip| && j < |tip[m].deposits| && v == LogView(tip, m, j);
      assert chain[m] == tip[m];
    }
  }

  lemma LiveBelow(db: ChainDb, start: nat, chain: seq<Block>, n: nat, i: nat)
    requires Synced(db, start) && ChainOk(chain) && Agrees(Tip(db), chain)
    requires |Tip(db)| <= n < |chain| && i < |chain[n].deposits|
    ensures NotLive(db.events, chain[n].deposits[i].id)
  {
    LaterIdsDiffer(Tip(db), start, chain, n, i);
    assert forall k: nat | k < |db.events| && Live(db.events[k]) :: ViewOf(db.events[k]) in LiveViews(db.events);
  }

  function RangeInputs(contract: string, chain: seq<Block>, from: nat, end: nat): seq<DepositInput>
    requires end <= |chain|
  {
    InputsOf(contract, LogsIn(chain, from, end))
  }

  lemma RangeIsNew(db: ChainDb, start: nat, chain: seq<Block>, contract: string, end: nat)
    requires Synced(db, start) && ChainOk(chain) && Agrees(Tip(db), chain)
    requires NextBlock(db, start) < end <= |chain|
    ensures var ds := RangeInputs(contract, chain, NextBlock(db, start), end);
            DistinctInputs(ds) && forall k | 0 <= k < |ds| :: NotLive(db.events, ds[k].id)
  {
    var from := NextBlock(db, start);
    var logs := LogsIn(chain, from, end);
    LogsDistinct(chain, from, end);
    LogsInMeaning(chain, from, end);
    forall k | 0 <= k < |logs| ensures NotLive(db.events, logs[k].deposit.id) {
      assert logs[k] in logs;
      var log := logs[k];
      var i: nat :| i < |chain[log.number].deposits| && log.deposit == chain[log.number].deposits[i];
      LiveBelow(db, start, chain, log.number, i);
    }
  }

  lemma NothingBefore(chain: seq<Block>, start: nat)
    requires start <= |chain|
    ensures ChainViews(chain[..start], start) == ChainViews([], start) == {}
  {
  }

  lemma ChainOkPrefix(chain: seq<Block>, end: nat)
    requires ChainOk(chain) && end <= |chain|
    ensures ChainOk(chain[..end])
  {
  }

  lemma HistoryGrows(history: map<nat, BlockHash>, tip: BlockHash, chain: seq<Block>, start: nat, end: nat)
    requires HistoryOf(history, tip, start) && Agrees(tip, chain) && |tip| <= end <= |chain| && start < end
    ensures HistoryOf(history[end - 1 := chain[..end]], chain[..end], start)
  {
    var after, longer := history[end - 1 := chain[..end]], chain[..end];
    forall n | n in after ensures start <= n < |longer| && after[n] == longer[..n + 1] {
      if n != end - 1 {
        assert history[n] == tip[..n + 1];
        assert tip[..n + 1] == longer[..n + 1];
      }
    }
  }

  lemma RangeOnChain(chain: seq<Block>, contract: string, from: nat, end: nat)
    requires end <= |chain|
    ensures forall k | 0 <= k < |RangeInputs(contract, chain, from, end)| ::
              InputOnChain(chain[..end], RangeInputs(contract, chain, from, end)[k])
  {
    var logs := LogsIn(chain, from, end);
    LogsInMeaning(chain, from, end);
    forall k | 0 <= k < |logs| ensures InputOnChain(chain[..end], InputOf(contract, logs[k])) {
      assert logs[k] in logs;
      var log := logs[k];
      var i :| 0 <= i < |chain[log.number].deposits| && log.deposit == chain[log.number].deposits[i];
      assert chain[..end][log.number].deposits[i] == log.deposit;
    }
  }

  /** What a chain vouches for, a longer one does too. */
  lemma OwnedExtends(events: seq<DepositEvent>, low: seq<Block>, all: seq<Block>)
    requires Owned(events, low) && Agrees(low, all)
    ensures Owned(events, all)
  {
    forall k: nat | k < |events| ensures RowOwned(all, events[k]) {
      assert RowOwned(low, events[k]);
      if Live(events[k]) && Vouched(events[k]) {
        assert all[events[k].number] == low[events[k].number];
      }
    }
  }

  /** Committing the next range of a chain the checkpoint agrees with keeps the record in step with that chain. */
  lemma RangeKeepsSynced(db: ChainDb, start: nat, lease: nat, chain: seq<Block>, contract: string, end: nat)
    requires Synced(db, start) && ChainOk(chain) && Agrees(Tip(db), chain)
    requires NextBlock(db, start) < end <= |chain|
    requires var ds := RangeInputs(contract, chain, NextBlock(db, start), end);
             CommitRange(db, lease, ds, Checkpoint(end - 1, chain[..end])).Ok?
    ensures var ds := RangeInputs(contract, chain, NextBlock(db, start), end);
            var after := CommitRange(db, lease, ds, Checkpoint(end - 1, chain[..end])).value;
            && Synced(after, start) && Tip(after) == chain[..end] && NextBlock(after, start) == end
            && after.generation == db.generation && after.users == db.users
  {
    var from := NextBlock(db, start);
    var ds := RangeInputs(contract, chain, from, end);
    RangeIsNew(db, start, chain, contract, end);
    CreditAllViews(db, ds);
    RangeViews(chain, start, from, end, contract);
    NothingBefore(chain, start);
    assert Tip(db) != [] ==> Tip(db) == chain[..from];
    ChainOkPrefix(chain, end);
    HistoryGrows(db.history, Tip(db), chain, start, end);
    RangeOwned(db, start, chain, contract, end);
  }

  lemma RangeOwned(db: ChainDb, start: nat, chain: seq<Block>, contract: string, end: nat)
    requires Synced(db, start) && Agrees(Tip(db), chain) && NextBlock(db, start) <= end <= |chain|
    requires CreditAll(db, RangeInputs(contract, chain, NextBlock(db, start), end)).Ok?
    ensures Owned(CreditAll(db, RangeInputs(contract, chain, NextBlock(db, start), end)).value.events, chain[..end])
  {
    assert Agrees(Tip(db), chain[..end]);
    OwnedExtends(db.events, Tip(db), chain[..end]);
    RangeOnChain(chain, contract, NextBlock(db, start), end);
    CreditAllOwned(db, RangeInputs(contract, chain, NextBlock(db, start), end), chain[..end]);
  }

  /** Going through the rows reorgs exactly the live ones from the given block on. */
  lemma {:induction false} UndoneRows(db: ChainDb, from: nat, k: nat)
    requires k <= |db.events| && Undone(db, from, k).Ok?
    ensures var after := Undone(db, from, k).value;
            && after.(events := db.events, ledger := db.ledger) == db
            && forall j | 0 <= j < |db.events| ::
              after.events[j]
              == if j < k && Affected(db.events[j], from) then ReorgedRow(db.events[j]) else db.events[j]
  {
    if k > 0 {
      UndoneRows(db, from, k - 1);
    }
  }

  function ViewsUnder(views: set<View>, from: nat): set<View> { set v | v in views && v.number < from }

  lemma UndoneViews(db: ChainDb, from: nat)
    requires UniqueEvents(db.events) && Undone(db, from, |db.events|).Ok?
    ensures var after := Undone(db, from, |db.events|).value;
            && UniqueEvents(after.events)
            && LiveViews(after.events) == ViewsUnder(LiveViews(db.events), from)
            && after.(events := db.events, ledger := db.ledger) == db
  {
    UndoneRows(db, from, |db.events|);
    var after := Undone(db, from, |db.events|).value;
    forall v | v in LiveViews(db.events) && v.number < from ensures v in LiveViews(after.events) {
      var k: nat :| k < |db.events| && Live(db.events[k]) && v == ViewOf(db.events[k]);
      assert after.events[k] == db.events[k];
    }
    forall v | v in LiveViews(after.events) ensures v in LiveViews(db.events) && v.number < from {
      var k: nat :| k < |after.events| && Live(after.events[k]) && v == ViewOf(after.events[k]);
      assert after.events[k] == db.events[k];
    }
  }

  lemma ViewsBelow(chain: seq<Block>, start: nat, from: nat)
    requires from <= |chain|
    ensures ViewsUnder(ChainViews(chain, start), from) == ChainViews(chain[..from], start)
  {
    var low := chain[..from];
    forall v | v in ChainViews(chain, start) && v.number < from ensures v in ChainViews(low, start) {
      var n: nat, i: nat :| start <= n < |chain| && i < |chain[n].deposits| && v == LogView(chain, n, i);
      assert low[..n + 1] == chain[..n + 1];
      assert v == LogView(low, n, i);
    }
    forall v | v in ChainViews(low, start) ensures v in ChainViews(chain, start) && v.number < from {
      var n: nat, i: nat :| start <= n < |low| && i < |low[n].deposits| && v == LogView(low, n, i);
      assert low[..n + 1] == chain[..n + 1];
      assert v == LogView(chain, n, i);
    }
  }

  /** The checkpoint a rewind leaves: the block before it, unless it goes back to the start. */
  function RewindPoint(chain: seq<Block>, start: nat, from: nat): Option<Checkpoint>
    requires from <= |chain| || from <= start
  {
    if from > start then Some(Checkpoint(from - 1, chain[..from])) else None
  }

  /** Rewinding to where the record and the chain still agree keeps the record in step with that chain. */
  lemma RewindKeepsSynced(db: ChainDb, start: nat, lease: nat, chain: seq<Block>, from: nat)
    requires Synced(db, start) && ChainOk(chain) && start <= from
    requires from > start ==> from <= |chain| && from <= |Tip(db)| && Tip(db)[..from] == chain[..from]
    requires Rewind(db, lease, from, RewindPoint(chain, start, from)).Ok?
    ensures var after := Rewind(db, lease, from, RewindPoint(chain, start, from)).value;
            && Synced(after, start) && Agrees(Tip(after), chain) && NextBlock(after, start) == from
            && after.generation == db.generation && after.users == db.users
  {
    UndoneViews(db, from);
    var undone := Undone(db, from, |db.events|).value;
    assert undone.generation == db.generation && undone.users == db.users;
    if from > start {
      ViewsBelow(Tip(db), start, from);
      ChainOkPrefix(chain, from);
      RewoundHistory(db.history, Tip(db), start, from);
      RewoundOwned(db, Tip(db), from);
    } else {
      AllReorged(db, start, from);
      assert forall v | v in ChainViews(Tip(db), start) :: v.number >= start;
      assert ChainViews([], start) == {};
    }
  }

  /** A rewind to the start leaves nothing live. */
  lemma AllReorged(db: ChainDb, start: nat, from: nat)
    requires Synced(db, start) && from == start && Undone(db, from, |db.events|).Ok?
    ensures Owned(Undone(db, from, |db.events|).value.events, [])
  {
    UndoneRows(db, from, |db.events|);
    var after := Undone(db, from, |db.events|).value;
    forall k: nat | k < |after.events| ensures RowOwned([], after.events[k]) {
      assert RowOwned(Tip(db), db.events[k]);
      if Live(db.events[k]) {
        assert ViewOf(db.events[k]) in LiveViews(db.events);
      }
    }
  }

  /** Rows before the block a rewind goes back to keep their wallets; the others are no longer live. */
  lemma RewoundOwned(db: ChainDb, tip: BlockHash, from: nat)
    requires Owned(db.events, tip) && Undone(db, from, |db.events|).Ok? && from <= |tip|
    ensures Owned(Undone(db, from, |db.events|).value.events, tip[..from])
  {
    UndoneRows(db, from, |db.events|);
    var after := Undone(db, from, |db.events|).value;
    forall k: nat | k < |after.events| ensures RowOwned(tip[..from], after.events[k]) {
      var e := db.events[k];
      assert RowOwned(tip, e);
      if Live(after.events[k]) {
        assert after.events[k] == e && e.number < from;
        assert tip[..from][e.number] == tip[e.number];
      }
    }
  }

  lemma RewoundHistory(history: map<nat, BlockHash>, tip: BlockHash, start: nat, from: nat)
    requires HistoryOf(history, tip, start) && start < from <= |tip|
    ensures HistoryOf(HistoryBelow(history, from)[from - 1 := tip[..from]], tip[..from], start)
  {
    var kept := HistoryBelow(history, from)[from - 1 := tip[..from]];
    forall n | n in kept ensures start <= n < from && kept[n] == tip[..from][..n + 1] {
      if n != from - 1 {
        assert history[n] == tip[..n + 1];
      }
      assert tip[..from][..n + 1] == tip[..n + 1];
    }
  }

  // ---- Whose wallet is recorded ----

  /** Importing a deposit records the wallet of its log exactly when that wallet has a user, or the row is new, or an
      earlier import already recorded the same wallet. */
  lemma WalletRecorded(db: ChainDb, d: DepositInput)
    requires NotLive(db.events, d.id) && Credit(db, d).Ok?
    ensures var i := EventIndex(db.events, d.id);
            var after := Credit(db, d).value;
            && i < |after.events| && after.events[i].id == d.id
            && (after.events[i].wallet == d.wallet <==>
                d.wallet in db.users || i == |db.events| || db.events[i].wallet == d.wallet)
  {
  }

  /** A reorged row reimported for a wallet without a user keeps the wallet of the log that is gone. */
  lemma ReimportKeepsOldWallet()
    ensures var row := DepositEvent("1:0xa:0", 5, [], "old", 7, Reorged, 1, None, None);
            var db := ChainDb(1, None, map[], [row], map[], []);
            var d := DepositInput("1:0xa:0", 6, [], "new", 7, TreasuryAccount("c"), EscrowAccount("new"));
            && Credit(db, d).Ok? && Live(Credit(db, d).value.events[0])
            && Credit(db, d).value.events[0].wallet == "old" != d.wallet
  {
    assert "old"[0] != "new"[0];
  }
}

/** What one commit of a scanning worker puts on record: the confirmed deposits of the next blocks, credited to whoever
    has registered the wallet, and nothing else. */
module Scanning {
  import opened ChainStore
  import opened Fencing
  import opened Indexer
  import opened IndexerService
  import opened Ledger
  import opened Numbers
  import opened Sealing
  import opened Sequences
  import opened Wrappers

  /** The row records the deposit, credited exactly when its wallet belongs to a user, and then to that user. */
  predicate Records(users: map<Wallet, UserId>, d: DepositInput, row: DepositEvent) {
    && row.id == d.id && row.number == d.number && row.hash == d.hash && row.amount == d.amount
    && if d.wallet in users
       then row.status == Credited && row.wallet == d.wallet && row.user == Some(users[d.wallet])
            && row.credit == Some(DepositCredit(d.id, row.revision))
       else row.status == Unattributed
  }

  predicate RecordsOneOf(users: map<Wallet, UserId>, ds: seq<DepositInput>, row: DepositEvent) {
    exists k :: 0 <= k < |ds| && Records(users, ds[k], row)
  }

  lemma {:induction false} CreditedRows(db: ChainDb, ds: seq<DepositInput>)
    requires CreditAll(db, ds).Ok?
    ensures CreditAll(db, ds).value.users == db.users
    ensures forall row | row in CreditAll(db, ds).value.events :: row in db.events || RecordsOneOf(db.users, ds, row)
  {
    if |ds| > 0 {
      var n := |ds| - 1;
      CreditedRows(db, ds[..n]);
      var before, after := CreditAll(db, ds[..n]).value, CreditAll(db, ds).value;
      forall row | row in after.events ensures row in db.events || RecordsOneOf(db.users, ds, row) {
        if row in before.events {
          if row !in db.events {
            var k :| 0 <= k < n && Records(db.users, ds[..n][k], row);
            assert ds[k] == ds[..n][k];
          }
        } else {
          assert Records(db.users, ds[n], row);
        }
      }
    }
  }

  /** A deposit of the chain between two blocks. */
  predicate RecordsDeposit(users: map<Wallet, UserId>, chain: seq<Block>, from: nat, end: nat, row: DepositEvent) {
    && from <= row.number < end <= |chain| && row.hash == chain[..row.number + 1]
    && exists i :: 0 <= i < |chain[row.number].deposits| && IsDeposit(users, chain[row.number].deposits[i], row)
  }

  predicate IsDeposit(users: map<Wallet, UserId>, d: Deposit, row: DepositEvent) {
    && row.id == d.id && row.amount == d.amount
    && if d.wallet in users then row.status == Credited && row.wallet == d.wallet && row.user == Some(users[d.wallet])
       else row.status == Unattributed
  }

  lemma RangeRows(db: ChainDb, lease: nat, chain: seq<Block>, from: nat, end: nat, contract: string)
    requires 0 < end <= |chain| && RangeCommit(db, lease, chain, from, end, contract).Ok?
    ensures var after := RangeCommit(db, lease, chain, from, end, contract).value;
            && after.users == db.users
            && forall row | row in after.events :: row in db.events || RecordsDeposit(db.users, chain, from, end, row)
  {
    var ds, logs := RangeInputs(contract, chain, from, end), LogsIn(chain, from, end);
    CreditedRows(db, ds);
    LogsInMeaning(chain, from, end);
    var after := RangeCommit(db, lease, chain, from, end, contract).value;
    forall row | row in after.events && row !in db.events ensures RecordsDeposit(db.users, chain, from, end, row) {
      var k :| 0 <= k < |ds| && Records(db.users, ds[k], row);
      assert logs[k] in logs;
      var i :| 0 <= i < |chain[logs[k].number].deposits| && logs[k].deposit == chain[logs[k].number].deposits[i];
      assert IsDeposit(db.users, chain[row.number].deposits[i], row);
    }
  }

  /** The event is a worker's commit that takes effect. */
  predicate Commits(world: World, event: Event, next: World) {
    event.Proceed? && event.worker in world.workers && next.commits != world.commits
  }

  predicate ScanCommits(world: World, event: Event, next: World) {
    Commits(world, event, next) && world.workers[event.worker].phase.Scanning?
  }

  predicate RewindCommits(world: World, event: Event, next: World) {
    Commits(world, event, next) && world.workers[event.worker].phase.Rewinding?
  }

  lemma OneScan(world: World, id: WorkerId, config: Config)
    requires WorldOk(world, config) && config.rangeSize > 0 && id in world.workers
    requires ScanCommits(world, Proceed(id), Work(world, id, config))
    ensures var w, next := world.workers[id], NextBlock(world.db, config.start);
            && w.phase == Scanning(next) && w.lease == world.db.generation && Agrees(Tip(world.db), w.chain)
            && next <= SafeTip(w.chain, config)
            && RangeCommit(world.db, w.lease, w.chain, next, RangeEnd(w.chain, config, next), config.contract)
               == Ok(Work(world, id, config).db)
  {
    var w := world.workers[id];
    assert WorkerOk(world.db, w, config);
    var next := w.phase.next;
    if next <= SafeTip(w.chain, config) {
      FenceGuards(world.db, w.lease, RangeInputs(config.contract, w.chain, next, RangeEnd(w.chain, config, next)),
                  Checkpoint(RangeEnd(w.chain, config, next) - 1, w.chain[..RangeEnd(w.chain, config, next)]), 0, None);
      ScansNextBlock(world, id, config);
    }
  }

  /** Over all interleavings, a commit of a scanning worker moves the checkpoint to the last of the next blocks, at most
      one range of them, that have their confirmations on the worker's chain; and every row it writes is a deposit of
      those blocks. */
  lemma ScansOnlyConfirmed(worlds: seq<World>, events: seq<Event>, config: Config, k: nat)
    requires WorldRun(worlds, events, config) && k < |events| && ScanCommits(worlds[k], events[k], worlds[k + 1])
    ensures var db, after, chain := worlds[k].db, worlds[k + 1].db, worlds[k].workers[events[k].worker].chain;
            && after.checkpoint.Some?
            && var c := after.checkpoint.value;
            && c.number + 1 == Min(NextBlock(db, config.start) + config.rangeSize, |chain| - config.confirmations)
            && c.number < |chain| && c.hash == chain[..c.number + 1]
            && after.history == db.history[c.number := c.hash]
            && forall row | row in after.events ::
                 row in db.events
                 || (row.number + config.confirmations < |chain|
                     && RecordsDeposit(db.users, chain, NextBlock(db, config.start), c.number + 1, row))
  {
    EveryInterleaving(worlds, events, config, k);
    assert worlds[k + 1] == Work(worlds[k], events[k].worker, config) by {
      assert Open(GoesSeal, 0);
    }
    var world, id := worlds[k], events[k].worker;
    var chain := world.workers[id].chain;
    OneScan(world, id, config);
    var next := NextBlock(world.db, config.start);
    var end := RangeEnd(chain, config, next);
    assert WorkerOk(world.db, world.workers[id], config);
    RangeCommitBelief(world.db, config.start, world.workers[id].lease, chain, config.contract, end);
    RangeRows(world.db, world.workers[id].lease, chain, next, end, config.contract);
    RangeHistory(world.db, world.workers[id].lease, chain, next, end, config.contract);
  }

  lemma {:induction false} CreditKeepsRest(db: ChainDb, ds: seq<DepositInput>)
    requires CreditAll(db, ds).Ok?
    ensures CreditAll(db, ds).value.history == db.history && CreditAll(db, ds).value.checkpoint == db.checkpoint
  {
    if |ds| > 0 {
      CreditKeepsRest(db, ds[..|ds| - 1]);
    }
  }

  lemma RangeHistory(db: ChainDb, lease: nat, chain: seq<Block>, from: nat, end: nat, contract: string)
    requires 0 < end <= |chain| && RangeCommit(db, lease, chain, from, end, contract).Ok?
    requires db.checkpoint.Some? ==> db.checkpoint.value.number <= end - 1
    ensures RangeCommit(db, lease, chain, from, end, contract).value.history == db.history[end - 1 := chain[..end]]
  {
    CreditKeepsRest(db, RangeInputs(contract, chain, from, end));
  }

  // ---- Rewinding ----

  /** Rows as a rewind to a block leaves them: the live ones from that block on are reorganised under a new revision and
      lose their credit, all others are as they were. */
  predicate RowsRewound(events: seq<DepositEvent>, after: seq<DepositEvent>, from: nat) {
    && |after| == |events|
    && forall i | 0 <= i < |events| ::
         after[i] == if events[i].status != Reorged && events[i].number >= from
                     then events[i].(status := Reorged, revision := events[i].revision + 1, credit := None)
                     else events[i]
  }

  /** Over all interleavings, a commit of a rewinding worker goes back to a block up to which the record and the
      worker's chain agree: it reorganises exactly the live rows from there on, keeps exactly the checkpoints below it,
      and leaves the checkpoint on the block before it. */
  lemma RewindsOnlyBranch(worlds: seq<World>, events: seq<Event>, config: Config, k: nat)
    requires WorldRun(worlds, events, config) && k < |events| && RewindCommits(worlds[k], events[k], worlds[k + 1])
    ensures var db, after, w := worlds[k].db, worlds[k + 1].db, worlds[k].workers[events[k].worker];
            var from := w.phase.from;
            && config.start <= from
            && (from > config.start ==> from <= |w.chain| && from <= |Tip(db)| && Tip(db)[..from] == w.chain[..from])
            && RowsRewound(db.events, after.events, from)
            && after.checkpoint == (if from > config.start then Some(Checkpoint(from - 1, w.chain[..from])) else None)
            && forall n: nat :: n in after.history <==>
                 (n in db.history && n < from) || (from > config.start && n == from - 1)
  {
    EveryInterleaving(worlds, events, config, k);
    assert worlds[k + 1] == Work(worlds[k], events[k].worker, config) by {
      assert Open(GoesSeal, 0);
    }
    OneRewind(worlds[k], events[k].worker, config);
  }

  lemma OneRewind(world: World, id: WorkerId, config: Config)
    requires WorldOk(world, config) && config.rangeSize > 0 && id in world.workers
    requires RewindCommits(world, Proceed(id), Work(world, id, config))
    ensures var db, after, w := world.db, Work(world, id, config).db, world.workers[id];
            var from := w.phase.from;
            && config.start <= from
            && (from > config.start ==> from <= |w.chain| && from <= |Tip(db)| && Tip(db)[..from] == w.chain[..from])
            && RowsRewound(db.events, after.events, from)
            && after.checkpoint == (if from > config.start then Some(Checkpoint(from - 1, w.chain[..from])) else None)
            && forall n: nat :: n in after.history <==>
                 (n in db.history && n < from) || (from > config.start && n == from - 1)
  {
    var db, w := world.db, world.workers[id];
    assert WorkerOk(db, w, config);
    var bounded := if w.phase.from > config.start then w.phase.from else config.start;
    FenceGuards(db, w.lease, [], Checkpoint(0, []), bounded, RewindPoint(w.chain, config.start, bounded));
    UndoneRows(db, bounded, |db.events|);
  }

  /** The search ends after the highest stored checkpoint below the block that lies on the worker's chain, or at the
      start block if there is none. */
  lemma SearchFindsHighest(db: ChainDb, chain: seq<Block>, config: Config, below: nat)
    requires HistoryOf(db.history, Tip(db), config.start)
    ensures var phase := AfterSearch(db, chain, config, below);
            && phase.Rewinding? && phase.from >= config.start
            && (phase.from > config.start ==> phase.from - 1 < below && SharedAt(db, chain, phase.from - 1))
            && forall n | n in db.history && phase.from <= n < below :: !SharedAt(db, chain, n)
  {
    DescendingMeaning(db.history, below);
    var candidates := Descending(db.history, below);
    FirstIsHighest(candidates, chain);
    FirstOnChainFound(candidates, chain);
    forall n | n in db.history && AfterSearch(db, chain, config, below).from <= n < below
      ensures !SharedAt(db, chain, n)
    {
      var c := Checkpoint(n, db.history[n]);
      assert c in candidates;
    }
  }

  lemma {:induction false} FirstIsHighest(candidates: seq<Checkpoint>, chain: seq<Block>)
    requires forall i, j | 0 <= i < j < |candidates| :: candidates[i].number > candidates[j].number
    ensures var r := FirstOnChain(candidates, chain);
            forall c | c in candidates && c.number < |chain| && c.hash == chain[..c.number + 1] ::
              r.Some? && c.number <= r.value.number
  {
    if |candidates| > 0 {
      FirstIsHighest(candidates[1..], chain);
      assert candidates == [candidates[0]] + candidates[1..];
      FirstOnChainFound(candidates[1..], chain);
    }
  }
}

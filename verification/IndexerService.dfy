/** One synchronisation against one snapshot of the chain, as the service runs it. */
module IndexerService {
  import opened ChainStore
  import opened Indexer
  import opened Ledger
  import opened Numbers
  import opened Sequences
  import opened Wrappers

  datatype Config = Config(start: nat, confirmations: nat, rangeSize: nat, contract: string)

  datatype SyncOutcome = Completed | TooFewBlocks | BlockNotFound | CommitRefused(error: ChainError)

  /** The record follows this chain, and every block with enough confirmations has been scanned. */
  predicate CaughtUp(db: ChainDb, chain: seq<Block>, config: Config) {
    Agrees(Tip(db), chain) && NextBlock(db, config.start) + config.confirmations >= |chain|
  }

  /** A stored checkpoint that lies on the chain. */
  predicate SharedAt(db: ChainDb, chain: seq<Block>, n: nat) {
    n in db.history && n < |chain| && db.history[n] == chain[..n + 1]
  }

  /** Where scanning this chain resumes: after the checkpoint if it lies on the chain, else after the highest stored
      checkpoint that does, else at the start block. */
  predicate Resumes(db: ChainDb, chain: seq<Block>, start: nat, next: nat) {
    if Agrees(Tip(db), chain) then next == NextBlock(db, start)
    else
      && (next == start || (next > start && SharedAt(db, chain, next - 1)))
      && forall n | n in db.history && n >= next :: !SharedAt(db, chain, n)
  }

  /** After the highest stored checkpoint that lies on the chain, scanning resumes. */
  lemma AncestorResumes(db: ChainDb, chain: seq<Block>, start: nat, ancestor: Option<Checkpoint>)
    requires Synced(db, start) && db.checkpoint.Some? && !Agrees(Tip(db), chain)
    requires db.checkpoint.value.number < |chain|
    requires ancestor.Some? ==>
               ancestor.value.number < db.checkpoint.value.number && SharedAt(db, chain, ancestor.value.number)
    requires forall n: nat | n < db.checkpoint.value.number && n in db.history
                             && (ancestor.Some? ==> n > ancestor.value.number) :: db.history[n] != chain[..n + 1]
    ensures Resumes(db, chain, start, if ancestor.Some? then ancestor.value.number + 1 else start)
  {
  }

  /** The checkpoint is exactly at the last block with enough confirmations, or further on if it was already. */
  ghost predicate ScannedTo(before: ChainDb, after: ChainDb, chain: seq<Block>, config: Config) {
    exists next: nat :: Resumes(before, chain, config.start, next)
                        && NextBlock(after, config.start) == Max(next, |chain| - config.confirmations)
  }

  lemma GenerationAside(db: ChainDb, generation: nat, after: ChainDb, chain: seq<Block>, config: Config)
    requires ScannedTo(db.(generation := generation), after, chain, config)
    ensures ScannedTo(db, after, chain, config)
  {
    var next: nat :| Resumes(db.(generation := generation), chain, config.start, next)
                     && NextBlock(after, config.start) == Max(next, |chain| - config.confirmations);
    assert Resumes(db, chain, config.start, next);
  }

  class Service {
    const tables: ChainTables
    const config: Config

    constructor (tables: ChainTables, config: Config)
      ensures this.tables == tables && this.config == config
    {
      this.tables := tables;
      this.config := config;
    }

    /** The highest stored checkpoint below the block that is still on the chain. */
    method FindCommonAncestor(chain: seq<Block>, below: nat) returns (r: Option<Checkpoint>)
      requires below < |chain|
      ensures r.Some? ==> r.value.number < below && r.value.number in tables.history
                          && tables.history[r.value.number] == r.value.hash == chain[..r.value.number + 1]
      ensures forall n: nat | n < below && n in tables.history && (r.Some? ==> n > r.value.number) ::
                tables.history[n] != chain[..n + 1]
    {
      var candidates := Descending(tables.history, below);
      DescendingMeaning(tables.history, below);
      for k := 0 to |candidates|
        invariant forall i | 0 <= i < k :: candidates[i].hash != chain[..candidates[i].number + 1]
      {
        assert candidates[k] in candidates;
        if chain[..candidates[k].number + 1] == candidates[k].hash {
          forall n: nat | n < below && n in tables.history && n > candidates[k].number
            ensures tables.history[n] != chain[..n + 1]
          {
            assert Checkpoint(n, tables.history[n]) in candidates;
          }
          return Some(candidates[k]);
        }
      }
      forall n: nat | n < below && n in tables.history ensures tables.history[n] != chain[..n + 1] {
        assert Checkpoint(n, tables.history[n]) in candidates;
      }
      return None;
    }

    /** Reads the deposit logs of a range and commits them with the checkpoint at its last block. */
    method ProcessRange(chain: seq<Block>, from: nat, end: nat, lease: nat) returns (fault: Option<ChainError>)
      requires from < end <= |chain|
      modifies tables`events, tables`history, tables`checkpoint, tables.book
      ensures var ds := RangeInputs(config.contract, chain, from, end);
              var result := CommitRange(old(tables.Contents()), lease, ds, Checkpoint(end - 1, chain[..end]));
              && (fault.None? ==> result == Ok(tables.Contents()))
              && (fault.Some? ==> result == Err(fault.value) && tables.Contents() == old(tables.Contents()))
    {
      var logs := LogsIn(chain, from, end);
      var deposits: seq<DepositInput> := [];
      for k := 0 to |logs|
        invariant deposits == InputsOf(config.contract, logs[..k])
      {
        deposits := deposits + [InputOf(config.contract, logs[k])];
      }
      assert logs[..|logs|] == logs;
      fault := tables.CommitChainDepositRange(deposits, Checkpoint(end - 1, chain[..end]), lease);
    }

    /** Rewinds to a block, never below the start, leaving the chain's own checkpoint before it. */
    method RewindLocked(chain: seq<Block>, fromBlock: nat, lease: nat) returns (fault: Option<ChainError>)
      requires fromBlock <= |chain| || fromBlock <= config.start
      modifies tables`events, tables`history, tables`checkpoint, tables.book
      ensures var from := if fromBlock > config.start then fromBlock else config.start;
              var result := Rewind(old(tables.Contents()), lease, from, RewindPoint(chain, config.start, from));
              && (fault.None? ==> result == Ok(tables.Contents()))
              && (fault.Some? ==> result == Err(fault.value) && tables.Contents() == old(tables.Contents()))
    {
      var bounded := if fromBlock > config.start then fromBlock else config.start;
      var checkpoint := if bounded > config.start then Some(Checkpoint(bounded - 1, chain[..bounded])) else None;
      fault := tables.RewindChainDeposits(bounded, checkpoint, lease);
    }

    /** Steps back to the last point the record shares with the chain, if its checkpoint has left the chain. */
    method Reconcile(chain: seq<Block>, lease: nat) returns (outcome: SyncOutcome)
      requires Synced(tables.Contents(), config.start) && ChainOk(chain)
      modifies tables`events, tables`history, tables`checkpoint, tables.book
      ensures Synced(tables.Contents(), config.start) && tables.users == old(tables.users)
      ensures outcome == Completed ==> Agrees(Tip(tables.Contents()), chain)
      ensures outcome == Completed ==>
                Resumes(old(tables.Contents()), chain, config.start, NextBlock(tables.Contents(), config.start))
      ensures outcome != Completed ==> tables.Contents() == old(tables.Contents())
      ensures outcome == BlockNotFound <==> |Tip(old(tables.Contents()))| > |chain|
      ensures outcome.CommitRefused? && outcome.error == FenceLost ==> lease != tables.generation
      ensures outcome != TooFewBlocks
    {
      if tables.checkpoint.None? {
        return Completed;
      }
      var checkpoint := tables.checkpoint.value;
      if checkpoint.number >= |chain| {
        return BlockNotFound;
      }
      if chain[..checkpoint.number + 1] == checkpoint.hash {
        return Completed;
      }
      ghost var db := tables.Contents();
      var ancestor := FindCommonAncestor(chain, checkpoint.number);
      var rewindFrom := if ancestor.Some? then ancestor.value.number + 1 else config.start;
      var fault := RewindLocked(chain, rewindFrom, lease);
      FenceGuards(db, lease, [], checkpoint, rewindFrom, RewindPoint(chain, config.start, rewindFrom));
      if fault.Some? {
        return CommitRefused(fault.value);
      }
      RewindKeepsSynced(db, config.start, lease, chain, rewindFrom);
      AncestorResumes(db, chain, config.start, ancestor);
      return Completed;
    }

    method ScanRange(chain: seq<Block>, end: nat, lease: nat) returns (fault: Option<ChainError>)
      requires Synced(tables.Contents(), config.start) && ChainOk(chain)
      requires Agrees(Tip(tables.Contents()), chain) && NextBlock(tables.Contents(), config.start) < end <= |chain|
      modifies tables`events, tables`history, tables`checkpoint, tables.book
      ensures Synced(tables.Contents(), config.start) && Agrees(Tip(tables.Contents()), chain)
      ensures fault.None? ==> NextBlock(tables.Contents(), config.start) == end
      ensures fault == Some(FenceLost) ==> lease != tables.generation
    {
      ghost var db := tables.Contents();
      ghost var from := NextBlock(db, config.start);
      FenceGuards(db, lease, RangeInputs(config.contract, chain, from, end), Checkpoint(end - 1, chain[..end]), 0,
                  None);
      fault := ProcessRange(chain, NextBlock(tables.Contents(), config.start), end, lease);
      if fault.None? {
        RangeKeepsSynced(db, config.start, lease, chain, config.contract, end);
      }
    }

    /** The synchronisation: reconcile with the chain, then scan range by range up to the confirmed tip. Whatever
        happens, the record stays in step with some chain; when it completes, with this one. */
    method SyncLocked(chain: seq<Block>, lease: nat) returns (outcome: SyncOutcome)
      requires Synced(tables.Contents(), config.start) && ChainOk(chain)
      requires |chain| > 0 && config.rangeSize > 0
      modifies tables`events, tables`history, tables`checkpoint, tables.book
      ensures Synced(tables.Contents(), config.start)
      ensures outcome == Completed ==>
                CaughtUp(tables.Contents(), chain, config)
                && LiveViews(tables.events) == ChainViews(chain[..|Tip(tables.Contents())|], config.start)
                && Owned(tables.events, chain[..|Tip(tables.Contents())|])
      ensures outcome == Completed ==> ScannedTo(old(tables.Contents()), tables.Contents(), chain, config)
      ensures outcome == TooFewBlocks <==> |chain| <= config.confirmations
      ensures outcome == TooFewBlocks ==> tables.Contents() == old(tables.Contents())
      ensures outcome == Completed || outcome == TooFewBlocks ==>
                (Agrees(Tip(tables.Contents()), chain) <==>
                 |chain| > config.confirmations || Agrees(Tip(old(tables.Contents())), chain))
      ensures outcome.CommitRefused? && outcome.error == FenceLost ==> lease != tables.generation
    {
      var latestBlock := |chain| - 1;
      if latestBlock < config.confirmations {
        return TooFewBlocks;
      }
      var safeTip := latestBlock - config.confirmations;
      outcome := Reconcile(chain, lease);
      if outcome != Completed {
        return;
      }
      var fromBlock := NextBlock(tables.Contents(), config.start);
      ghost var resumed := fromBlock;
      while fromBlock <= safeTip
        invariant Synced(tables.Contents(), config.start) && Agrees(Tip(tables.Contents()), chain)
        invariant fromBlock == NextBlock(tables.Contents(), config.start)
        invariant resumed <= fromBlock && (fromBlock == resumed || fromBlock <= safeTip + 1)
        decreases safeTip + 1 - fromBlock
      {
        var toBlock := Min(safeTip, fromBlock + config.rangeSize - 1);
        var fault := ScanRange(chain, toBlock + 1, lease);
        if fault.Some? {
          return CommitRefused(fault.value);
        }
        fromBlock := toBlock + 1;
      }
      return Completed;
    }

    /** Takes a lease, which makes every earlier one void, and synchronises under it. */
    method Sync(chain: seq<Block>) returns (outcome: SyncOutcome)
      requires Synced(tables.Contents(), config.start) && ChainOk(chain)
      requires |chain| > 0 && config.rangeSize > 0
      modifies tables`generation, tables`events, tables`history, tables`checkpoint, tables.book
      ensures Synced(tables.Contents(), config.start)
      ensures outcome == Completed ==>
                CaughtUp(tables.Contents(), chain, config)
                && LiveViews(tables.events) == ChainViews(chain[..|Tip(tables.Contents())|], config.start)
                && Owned(tables.events, chain[..|Tip(tables.Contents())|])
      ensures outcome == Completed ==> ScannedTo(old(tables.Contents()), tables.Contents(), chain, config)
      ensures outcome != CommitRefused(FenceLost)
    {
      var lease := tables.AcquireLease();
      assert tables.Contents() == old(tables.Contents()).(generation := lease);
      outcome := SyncLocked(chain, lease);
      if outcome == Completed {
        GenerationAside(old(tables.Contents()), lease, tables.Contents(), chain, config);
      }
    }
  }
}

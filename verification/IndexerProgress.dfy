/** An undisturbed synchronisation finishes: with the books in order none of its commits can be refused. */
module IndexerProgress {
  import opened Balances
  import opened ChainStore
  import opened Fencing
  import opened Indexer
  import opened IndexerService
  import opened Ledger
  import opened Sealing
  import opened Sequences
  import opened Withdrawals
  import opened Wrappers

  lemma RangeInputsOk(contract: string, chain: seq<Block>, from: nat, end: nat)
    requires ChainOk(chain) && end <= |chain|
    ensures forall k | 0 <= k < |RangeInputs(contract, chain, from, end)| ::
              InputOk(RangeInputs(contract, chain, from, end)[k], contract)
  {
    LogsInMeaning(chain, from, end);
    var logs := LogsIn(chain, from, end);
    forall k | 0 <= k < |logs| ensures InputOk(InputOf(contract, logs[k]), contract) {
      assert logs[k] in logs;
      var log := logs[k];
      var i :| 0 <= i < |chain[log.number].deposits| && log.deposit == chain[log.number].deposits[i];
    }
  }

  /** Under the newest lease no attempted commit fails. */
  lemma CurrentCommits(db: ChainDb, ws: seq<Withdrawal>, w: Worker, config: Config)
    requires BankOk(BankOf(db, ws), config.contract) && ChainOk(w.chain)
    requires config.rangeSize > 0 && w.lease == db.generation && Attempt(db, w, config).Some?
    ensures Attempt(db, w, config).value.Ok?
    ensures BankOk(BankOf(Attempt(db, w, config).value.value, ws), config.contract)
  {
    match w.phase {
      case Rewinding(from) =>
        var bounded := if from > config.start then from else config.start;
        RewindKeepsBank(db, ws, config.contract, w.lease, bounded, RewindPoint(w.chain, config.start, bounded));
      case Scanning(next) =>
        var end := RangeEnd(w.chain, config, next);
        RangeInputsOk(config.contract, w.chain, next, end);
        RangeKeepsBank(db, ws, config.contract, w.lease, RangeInputs(config.contract, w.chain, next, end),
                       Checkpoint(end - 1, w.chain[..end]));
    }
  }

  /** How many more steps the worker can take. */
  function Remaining(w: Worker, config: Config): int {
    match w.phase
    case Started => |w.chain| + 5
    case Searching(_) => |w.chain| + 4
    case Rewinding(_) => |w.chain| + 3
    case Rereading => |w.chain| + 2
    case Scanning(next) => if next <= SafeTip(w.chain, config) then SafeTip(w.chain, config) + 2 - next else 1
    case _ => 0
  }

  predicate Over(w: Worker) { w.phase.Finished? || w.phase.Stopped? }

  /** The chain is long enough to be looked at, and reaches the checkpoint. */
  predicate Long(db: ChainDb, chain: seq<Block>, config: Config) {
    |chain| > config.confirmations && |Tip(db)| <= |chain|
  }

  /** The worker holds the newest lease in a world whose books are in order. */
  ghost predicate Undisturbed(world: World, id: WorkerId, config: Config, ws: seq<Withdrawal>) {
    && config.rangeSize > 0 && id in world.workers
    && forall k {:trigger Open(UndisturbedSeal, k)} :: Open(UndisturbedSeal, k) ==> Unhindered(world, id, config, ws)
  }

  ghost predicate Unhindered(world: World, id: WorkerId, config: Config, ws: seq<Withdrawal>)
    requires id in world.workers
  {
    && WorldOk(world, config) && BankOk(BankOf(world.db, ws), config.contract)
    && world.workers[id].lease == world.db.generation
    && (world.workers[id].phase.Started? ==> Long(world.db, world.workers[id].chain, config))
    && !world.workers[id].phase.Stopped?
  }

  lemma PhaseProgress(db: ChainDb, w: Worker, config: Config)
    requires config.rangeSize > 0 && !Over(w) && WorkerOk(db, w, config) && w.lease == db.generation
    requires Synced(db, config.start) && (w.phase.Started? ==> Long(db, w.chain, config))
    requires Attempt(db, w, config).None?
    ensures var after := w.(phase := PhaseWithoutCommit(db, w, config));
            Remaining(after, config) < Remaining(w, config) && !after.phase.Stopped? && !after.phase.Started?
  {
  }

  lemma CommitProgress(db: ChainDb, w: Worker, config: Config)
    requires config.rangeSize > 0 && WorkerOk(db, w, config) && Attempt(db, w, config).Some?
    ensures var after := w.(phase := PhaseAfterCommit(w, config));
            Remaining(after, config) < Remaining(w, config) && !after.phase.Stopped? && !after.phase.Started?
  {
  }

  /** Each step of an undisturbed worker brings it closer to the end, and leaves it undisturbed. */
  lemma WorkProgress(world: World, id: WorkerId, config: Config, ws: seq<Withdrawal>)
    requires Undisturbed(world, id, config, ws) && !Over(world.workers[id])
    ensures var after := Work(world, id, config);
            && Undisturbed(after, id, config, ws)
            && Remaining(after.workers[id], config) < Remaining(world.workers[id], config)
            && after.workers[id].chain == world.workers[id].chain
  {
    assert Open(UndisturbedSeal, 0);
    var w := world.workers[id];
    assert WorkerOk(world.db, w, config);
    WorkKeeps(world, id, config);
    if Attempt(world.db, w, config).None? {
      PhaseProgress(world.db, w, config);
    } else {
      CurrentCommits(world.db, ws, w, config);
      CommitBelief(world.db, w, config);
      CommitProgress(world.db, w, config);
    }
  }

  lemma NotStopped(world: World, id: WorkerId, config: Config, ws: seq<Withdrawal>)
    requires Undisturbed(world, id, config, ws)
    ensures !world.workers[id].phase.Stopped? && WorldOk(world, config)
    ensures world.workers[id].lease == world.db.generation
    ensures Remaining(world.workers[id], config) <= 0 ==> Over(world.workers[id])
  {
    assert Open(UndisturbedSeal, 0);
  }

  ghost function WorkTimes(world: World, id: WorkerId, config: Config, ws: seq<Withdrawal>, k: nat): (r: World)
    requires Undisturbed(world, id, config, ws)
    ensures Undisturbed(r, id, config, ws) && r.workers[id].chain == world.workers[id].chain
    decreases k
  {
    if k == 0 || Over(world.workers[id]) then world
    else
      WorkProgress(world, id, config, ws);
      WorkTimes(Work(world, id, config), id, config, ws, k - 1)
  }

  lemma {:induction false} WorkFinishes(world: World, id: WorkerId, config: Config, ws: seq<Withdrawal>, k: nat)
    requires Undisturbed(world, id, config, ws) && Remaining(world.workers[id], config) <= k
    ensures WorkTimes(world, id, config, ws, k).workers[id].phase.Finished?
    decreases k
  {
    if Over(world.workers[id]) {
      NotStopped(world, id, config, ws);
    } else {
      WorkProgress(world, id, config, ws);
      WorkFinishes(Work(world, id, config), id, config, ws, k - 1);
    }
  }

  /** A worker that starts on a chain of n blocks, with enough confirmations and reaching the checkpoint, is done after
      at most n + 5 undisturbed steps, and the live events are then exactly that chain's deposits. */
  lemma SyncFinishes(world: World, id: WorkerId, config: Config, ws: seq<Withdrawal>)
    requires Undisturbed(world, id, config, ws) && world.workers[id].phase.Started?
    ensures var chain := world.workers[id].chain;
            var after := WorkTimes(world, id, config, ws, |chain| + 5);
            && after.workers[id].phase.Finished?
            && Agrees(Tip(after.db), chain)
            && LiveViews(after.db.events) == ChainViews(chain[..|Tip(after.db)|], config.start)
            && Owned(after.db.events, chain[..|Tip(after.db)|])
            && SafeTip(chain, config) < NextBlock(after.db, config.start)
  {
    var chain := world.workers[id].chain;
    WorkFinishes(world, id, config, ws, |chain| + 5);
    NotStopped(WorkTimes(world, id, config, ws, |chain| + 5), id, config, ws);
    FinishedIsRefined(WorkTimes(world, id, config, ws, |chain| + 5), id, config);
  }
}

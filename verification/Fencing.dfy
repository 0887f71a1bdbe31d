/** Many indexer workers over one database: each may lose its lock at any moment without noticing, and the lease
    generation alone keeps the record in order. */
module Fencing {
  import opened ChainStore
  import opened Indexer
  import opened IndexerService
  import opened Ledger
  import opened Numbers
  import opened Sealing
  import opened Sequences
  import opened Wrappers

  type WorkerId = nat

  /** Where a synchronisation stands between two accesses to the database. */
  datatype Phase =
    | Started
    | Searching(below: nat)
    | Rewinding(from: nat)
    | Rereading
    | Scanning(next: nat)
    | Finished
    | Stopped

  /** A worker with the lease it took, the chain snapshot it reads, and what it believes comes next. */
  datatype Worker = Worker(lease: nat, chain: seq<Block>, phase: Phase)

  /** `commits` lists the leases of the commits that took effect, oldest first. */
  datatype World = World(
    db: ChainDb,
    holder: Option<WorkerId>,
    workers: map<WorkerId, Worker>,
    commits: seq<nat>)

  datatype Event =
    | Acquire(worker: WorkerId, chain: seq<Block>)
    | LoseLock(worker: WorkerId)
    | Crash(worker: WorkerId)
    | Proceed(worker: WorkerId)
    | Register(wallet: Wallet, user: UserId)

  function SafeTip(chain: seq<Block>, config: Config): int { |chain| - 1 - config.confirmations }

  /** What the worker decides after reading the checkpoint. */
  function AfterCheckpoint(db: ChainDb, chain: seq<Block>, config: Config): Phase {
    if |chain| <= config.confirmations then Stopped
    else if db.checkpoint.None? then Scanning(config.start)
    else if db.checkpoint.value.number >= |chain| then Stopped
    else if chain[..db.checkpoint.value.number + 1] == db.checkpoint.value.hash
    then Scanning(db.checkpoint.value.number + 1)
    else Searching(db.checkpoint.value.number)
  }

  function FirstOnChain(candidates: seq<Checkpoint>, chain: seq<Block>): Option<Checkpoint> {
    if |candidates| == 0 then None
    else if candidates[0].number < |chain| && candidates[0].hash == chain[..candidates[0].number + 1]
    then Some(candidates[0])
    else FirstOnChain(candidates[1..], chain)
  }

  function AfterSearch(db: ChainDb, chain: seq<Block>, config: Config, below: nat): Phase {
    var ancestor := FirstOnChain(Descending(db.history, below), chain);
    Rewinding(if ancestor.Some? then ancestor.value.number + 1 else config.start)
  }

  function RangeEnd(chain: seq<Block>, config: Config, next: nat): nat
    requires next <= SafeTip(chain, config) && config.rangeSize > 0
  {
    Min(SafeTip(chain, config), next + config.rangeSize - 1) + 1
  }

  /** The commit the worker attempts in this phase, if any. */
  function Attempt(db: ChainDb, w: Worker, config: Config): Option<Result<ChainDb, ChainError>>
    requires config.rangeSize > 0
  {
    match w.phase
    case Rewinding(from) =>
      var bounded := if from > config.start then from else config.start;
      if bounded > config.start && bounded > |w.chain| then None
      else Some(Rewind(db, w.lease, bounded, RewindPoint(w.chain, config.start, bounded)))
    case Scanning(next) =>
      if next > SafeTip(w.chain, config) then None
      else
        var end := RangeEnd(w.chain, config, next);
        Some(RangeCommit(db, w.lease, w.chain, next, end, config.contract))
    case _ => None
  }

  function PhaseAfterCommit(w: Worker, config: Config): Phase
    requires config.rangeSize > 0
  {
    match w.phase
    case Scanning(next) =>
      if next <= SafeTip(w.chain, config) then Scanning(RangeEnd(w.chain, config, next)) else Finished
    case _ => Rereading
  }

  function PhaseWithoutCommit(db: ChainDb, w: Worker, config: Config): Phase {
    match w.phase
    case Started => AfterCheckpoint(db, w.chain, config)
    case Searching(below) => AfterSearch(db, w.chain, config, below)
    case Rewinding(_) => Stopped
    case Rereading => Scanning(NextBlock(db, config.start))
    case Scanning(_) => Finished
    case _ => w.phase
  }

  /** The worker moves on; one that is done or has failed gives the lock back. */
  function Moved(world: World, id: WorkerId, phase: Phase): World
    requires id in world.workers
  {
    world.(workers := world.workers[id := world.workers[id].(phase := phase)],
           holder := if (phase.Finished? || phase.Stopped?) && world.holder == Some(id) then None else world.holder)
  }

  /** The worker's next step: it reads and decides, or attempts its commit under its own lease. */
  function Work(world: World, id: WorkerId, config: Config): World
    requires id in world.workers && config.rangeSize > 0
  {
    var w := world.workers[id];
    match Attempt(world.db, w, config)
    case None => Moved(world, id, PhaseWithoutCommit(world.db, w, config))
    case Some(Err(_)) => Moved(world, id, Stopped)
    case Some(Ok(after)) =>
      Moved(world.(db := after, commits := world.commits + [w.lease]), id, PhaseAfterCommit(w, config))
  }

  /** Whether the event can happen now; the lock admits one holder at a time. */
  predicate Enabled(world: World, event: Event) {
    match event
    case Acquire(id, chain) => world.holder.None? && id !in world.workers && ChainOk(chain) && |chain| > 0
    case LoseLock(id) => world.holder == Some(id)
    case Crash(id) => id in world.workers
    case Proceed(id) => id in world.workers
    case Register(_, _) => true
  }

  function Step(world: World, event: Event, config: Config): World
    requires Enabled(world, event) && config.rangeSize > 0
  {
    match event
    case Acquire(id, chain) =>
      var lease := world.db.generation + 1;
      world.(db := world.db.(generation := lease), holder := Some(id),
             workers := world.workers[id := Worker(lease, chain, Started)])
    case LoseLock(id) => world.(holder := None)
    case Crash(id) => Moved(world, id, Stopped)
    case Proceed(id) => Work(world, id, config)
    case Register(wallet, user) => world.(db := world.db.(users := world.db.users[wallet := user]))
  }

  // ---- What every interleaving keeps ----

  /** What a worker whose lease is the newest may believe about the database. */
  ghost predicate BeliefHolds(db: ChainDb, w: Worker, config: Config) {
    match w.phase
    case Searching(below) =>
      && db.checkpoint.Some? && db.checkpoint.value.number == below < |w.chain|
    case Rewinding(from) =>
      && config.start <= from
      && (from > config.start ==> from <= |w.chain| && from <= |Tip(db)| && Tip(db)[..from] == w.chain[..from])
    case Rereading => Agrees(Tip(db), w.chain)
    case Scanning(next) => Agrees(Tip(db), w.chain) && next == NextBlock(db, config.start)
    case Finished => CaughtUp(db, w.chain, config)
    case _ => true
  }

  ghost predicate WorkerOk(db: ChainDb, w: Worker, config: Config) {
    && ChainOk(w.chain) && |w.chain| > 0
    && w.lease <= db.generation
    && (w.lease == db.generation ==> BeliefHolds(db, w, config))
  }

  predicate NonDecreasing(s: seq<nat>) {
    forall i, j | 0 <= i < j < |s| :: s[i] <= s[j]
  }

  ghost predicate WorldOk(world: World, config: Config) {
    && Synced(world.db, config.start)
    && (forall id | id in world.workers :: WorkerOk(world.db, world.workers[id], config))
    && (forall a, b | a in world.workers && b in world.workers && a != b ::
          world.workers[a].lease != world.workers[b].lease)
    && (world.holder.Some? ==> world.holder.value in world.workers
                               && world.workers[world.holder.value].lease == world.db.generation)
    && NonDecreasing(world.commits)
    && (forall i | 0 <= i < |world.commits| :: world.commits[i] <= world.db.generation)
  }

  lemma {:induction false} FirstOnChainFound(candidates: seq<Checkpoint>, chain: seq<Block>)
    ensures var r := FirstOnChain(candidates, chain);
            r.Some? ==> r.value in candidates && r.value.number < |chain|
                        && r.value.hash == chain[..r.value.number + 1]
  {
    if |candidates| > 0 {
      FirstOnChainFound(candidates[1..], chain);
    }
  }

  lemma SearchBelief(db: ChainDb, w: Worker, config: Config)
    requires Synced(db, config.start) && WorkerOk(db, w, config) && w.lease == db.generation
    requires w.phase.Searching?
    ensures BeliefHolds(db, w.(phase := AfterSearch(db, w.chain, config, w.phase.below)), config)
  {
    var below := w.phase.below;
    DescendingMeaning(db.history, below);
    FirstOnChainFound(Descending(db.history, below), w.chain);
    var ancestor := FirstOnChain(Descending(db.history, below), w.chain);
    if ancestor.Some? {
      assert db.history[ancestor.value.number] == Tip(db)[..ancestor.value.number + 1];
    }
  }

  /** Reading and deciding leads a worker with the newest lease to true beliefs. */
  lemma ReadingBelief(db: ChainDb, w: Worker, config: Config)
    requires Synced(db, config.start) && WorkerOk(db, w, config) && w.lease == db.generation
    requires config.rangeSize > 0 && Attempt(db, w, config).None?
    ensures BeliefHolds(db, w.(phase := PhaseWithoutCommit(db, w, config)), config)
  {
    if w.phase.Searching? {
      SearchBelief(db, w, config);
    }
  }

  lemma RewindBelief(db: ChainDb, w: Worker, config: Config)
    requires Synced(db, config.start) && WorkerOk(db, w, config) && w.lease == db.generation
    requires config.rangeSize > 0 && w.phase.Rewinding?
    requires Attempt(db, w, config).Some? && Attempt(db, w, config).value.Ok?
    ensures var after := Attempt(db, w, config).value.value;
            Synced(after, config.start) && after.generation == db.generation && Agrees(Tip(after), w.chain)
  {
    RewindKeepsSynced(db, config.start, w.lease, w.chain, w.phase.from);
  }

  function RangeCommit(db: ChainDb, lease: nat, chain: seq<Block>, from: nat, end: nat, contract: string)
    : Result<ChainDb, ChainError>
    requires 0 < end <= |chain|
  {
    CommitRange(db, lease, RangeInputs(contract, chain, from, end), Checkpoint(end - 1, chain[..end]))
  }

  lemma RangeCommitBelief(db: ChainDb, start: nat, lease: nat, chain: seq<Block>, contract: string, end: nat)
    requires Synced(db, start) && ChainOk(chain) && Agrees(Tip(db), chain)
    requires NextBlock(db, start) < end <= |chain|
    requires RangeCommit(db, lease, chain, NextBlock(db, start), end, contract).Ok?
    ensures var after := RangeCommit(db, lease, chain, NextBlock(db, start), end, contract).value;
            && Synced(after, start) && after.generation == db.generation && Agrees(Tip(after), chain)
            && NextBlock(after, start) == end
  {
    RangeKeepsSynced(db, start, lease, chain, contract, end);
  }

  lemma RangeBelief(db: ChainDb, w: Worker, config: Config)
    requires Synced(db, config.start) && WorkerOk(db, w, config) && w.lease == db.generation
    requires config.rangeSize > 0 && w.phase.Scanning?
    requires Attempt(db, w, config).Some? && Attempt(db, w, config).value.Ok?
    ensures w.phase.next <= SafeTip(w.chain, config)
    ensures var after := Attempt(db, w, config).value.value;
            && Synced(after, config.start) && after.generation == db.generation && Agrees(Tip(after), w.chain)
            && NextBlock(after, config.start) == RangeEnd(w.chain, config, w.phase.next)
  {
    RangeCommitBelief(db, config.start, w.lease, w.chain, config.contract, RangeEnd(w.chain, config, w.phase.next));
  }

  /** A commit under the newest lease keeps the record in step and the worker's beliefs true. */
  lemma CommitBelief(db: ChainDb, w: Worker, config: Config)
    requires Synced(db, config.start) && WorkerOk(db, w, config) && w.lease == db.generation
    requires config.rangeSize > 0 && Attempt(db, w, config).Some? && Attempt(db, w, config).value.Ok?
    ensures var after := Attempt(db, w, config).value.value;
            && Synced(after, config.start) && after.generation == db.generation
            && BeliefHolds(after, w.(phase := PhaseAfterCommit(w, config)), config)
  {
    if w.phase.Rewinding? {
      RewindBelief(db, w, config);
    } else {
      RangeBelief(db, w, config);
    }
  }

  /** A worker whose lease is not the newest never changes the database again. */
  lemma StaleNeverWrites(world: World, id: WorkerId, config: Config)
    requires id in world.workers && config.rangeSize > 0 && world.workers[id].lease != world.db.generation
    ensures Work(world, id, config).db == world.db && Work(world, id, config).commits == world.commits
  {
    StaleAttempt(world.db, world.workers[id], config);
  }

  lemma StaleAttempt(db: ChainDb, w: Worker, config: Config)
    requires config.rangeSize > 0 && w.lease != db.generation
    ensures Attempt(db, w, config).Some? ==> Attempt(db, w, config).value == Err(FenceLost)
  {
    match w.phase {
      case Rewinding(from) =>
        var bounded := if from > config.start then from else config.start;
        if bounded <= config.start || bounded <= |w.chain| {
          FenceGuards(db, w.lease, [], Checkpoint(0, []), bounded, RewindPoint(w.chain, config.start, bounded));
        }
      case Scanning(next) =>
        if next <= SafeTip(w.chain, config) {
          var end := RangeEnd(w.chain, config, next);
          FenceGuards(db, w.lease, RangeInputs(config.contract, w.chain, next, end),
                      Checkpoint(end - 1, w.chain[..end]), 0, None);
        }
      case _ =>
    }
  }

  // ---- Every step ----

  lemma MovedKeeps(world: World, id: WorkerId, phase: Phase, config: Config)
    requires WorldOk(world, config) && id in world.workers
    requires world.workers[id].lease == world.db.generation ==>
               BeliefHolds(world.db, world.workers[id].(phase := phase), config)
    ensures WorldOk(Moved(world, id, phase), config)
  {
    var after := Moved(world, id, phase);
    forall other | other in after.workers ensures WorkerOk(after.db, after.workers[other], config) {
      assert WorkerOk(world.db, world.workers[other], config);
    }
  }

  lemma TakenKeeps(world: World, id: WorkerId, after: ChainDb, phase: Phase, config: Config)
    requires WorldOk(world, config) && id in world.workers && world.workers[id].lease == world.db.generation
    requires Synced(after, config.start) && after.generation == world.db.generation
    requires BeliefHolds(after, world.workers[id].(phase := phase), config)
    ensures WorldOk(Moved(world.(db := after, commits := world.commits + [world.workers[id].lease]), id, phase), config)
  {
    var next := Moved(world.(db := after, commits := world.commits + [world.workers[id].lease]), id, phase);
    forall other | other in next.workers ensures WorkerOk(next.db, next.workers[other], config) {
      assert WorkerOk(world.db, world.workers[other], config);
    }
  }

  lemma CommitKeeps(world: World, id: WorkerId, config: Config)
    requires WorldOk(world, config) && id in world.workers && config.rangeSize > 0
    requires Attempt(world.db, world.workers[id], config).Some?
             && Attempt(world.db, world.workers[id], config).value.Ok?
    ensures WorldOk(Work(world, id, config), config)
  {
    var w := world.workers[id];
    if w.lease != world.db.generation {
      StaleAttempt(world.db, w, config);
    }
    assert WorkerOk(world.db, w, config);
    CommitBelief(world.db, w, config);
    TakenKeeps(world, id, Attempt(world.db, w, config).value.value, PhaseAfterCommit(w, config), config);
  }

  lemma WorkKeeps(world: World, id: WorkerId, config: Config)
    requires WorldOk(world, config) && id in world.workers && config.rangeSize > 0
    ensures WorldOk(Work(world, id, config), config)
  {
    var w := world.workers[id];
    assert WorkerOk(world.db, w, config);
    match Attempt(world.db, w, config) {
      case None =>
        if w.lease == world.db.generation {
          ReadingBelief(world.db, w, config);
        }
        MovedKeeps(world, id, PhaseWithoutCommit(world.db, w, config), config);
      case Some(Err(_)) => MovedKeeps(world, id, Stopped, config);
      case Some(Ok(_)) => CommitKeeps(world, id, config);
    }
  }

  lemma AcquireKeeps(world: World, id: WorkerId, chain: seq<Block>, config: Config)
    requires WorldOk(world, config) && Enabled(world, Acquire(id, chain)) && config.rangeSize > 0
    ensures WorldOk(Step(world, Acquire(id, chain), config), config)
  {
    var after := Step(world, Acquire(id, chain), config);
    forall other | other in after.workers ensures WorkerOk(after.db, after.workers[other], config) {
      if other != id {
        assert WorkerOk(world.db, world.workers[other], config);
      }
    }
  }

  lemma RegisterKeeps(world: World, wallet: Wallet, user: UserId, config: Config)
    requires WorldOk(world, config) && config.rangeSize > 0
    ensures WorldOk(Step(world, Register(wallet, user), config), config)
  {
    var after := Step(world, Register(wallet, user), config);
    forall other | other in after.workers ensures WorkerOk(after.db, after.workers[other], config) {
      assert WorkerOk(world.db, world.workers[other], config);
    }
  }

  /** No interleaving of workers, lost locks, crashes and registrations breaks the record. */
  lemma StepKeepsWorld(world: World, event: Event, config: Config)
    requires WorldOk(world, config) && Enabled(world, event) && config.rangeSize > 0
    ensures WorldOk(Step(world, event, config), config)
  {
    match event {
      case Acquire(id, chain) => AcquireKeeps(world, id, chain, config);
      case LoseLock(_) =>
      case Crash(id) => MovedKeeps(world, id, Stopped, config);
      case Proceed(id) => WorkKeeps(world, id, config);
      case Register(wallet, user) => RegisterKeeps(world, wallet, user, config);
    }
  }

  function Fresh(users: map<Wallet, UserId>): World {
    World(ChainDb(0, None, map[], [], users, []), None, map[], [])
  }

  /** The event can happen in this world and leads to that one. */
  ghost predicate Goes(world: World, event: Event, config: Config, next: World) {
    forall k {:trigger Open(GoesSeal, k)} :: Open(GoesSeal, k) ==>
      config.rangeSize > 0 && Enabled(world, event) && next == Step(world, event, config)
  }

  /** A run from an empty database. */
  ghost predicate WorldRun(worlds: seq<World>, events: seq<Event>, config: Config) {
    && config.rangeSize > 0
    && |worlds| == |events| + 1
    && (exists users :: worlds[0] == Fresh(users))
    && forall k {:trigger events[k]} | 0 <= k < |events| :: Goes(worlds[k], events[k], config, worlds[k + 1])
  }

  /** Commits take effect in the order of the leases; the live events are always exactly the deposits of the chain
      the checkpoint names, every checkpoint in the history lies on it, and the worker with the newest lease, while
      it scans, is about to scan exactly the block after the checkpoint. */
  lemma {:induction false} EveryInterleaving(worlds: seq<World>, events: seq<Event>, config: Config, k: nat)
    requires WorldRun(worlds, events, config) && k < |worlds|
    ensures WorldOk(worlds[k], config)
  {
    if k > 0 {
      EveryInterleaving(worlds, events, config, k - 1);
      var event := events[k - 1];
      assert Open(GoesSeal, 0);
      StepKeepsWorld(worlds[k - 1], event, config);
    } else {
      assert ChainViews([], config.start) == {};
    }
  }

  /** When a synchronisation finishes and nobody has taken a newer lease, the live events are exactly the deposits of
      its chain from the start block to the checkpoint, which is at or past the last confirmed block, and every vouched
      row names the wallet of its deposit. */
  lemma FinishedIsRefined(world: World, id: WorkerId, config: Config)
    requires WorldOk(world, config) && id in world.workers
    requires world.workers[id].phase.Finished? && world.workers[id].lease == world.db.generation
    ensures var chain, tip := world.workers[id].chain, Tip(world.db);
            && Agrees(tip, chain)
            && LiveViews(world.db.events) == ChainViews(chain[..|tip|], config.start)
            && Owned(world.db.events, chain[..|tip|])
            && SafeTip(chain, config) < NextBlock(world.db, config.start)
  {
    assert WorkerOk(world.db, world.workers[id], config);
  }

  /** The worker with the newest lease scans on from the block after the checkpoint, on the checkpoint's own chain. */
  lemma ScansNextBlock(world: World, id: WorkerId, config: Config)
    requires WorldOk(world, config) && id in world.workers
    requires world.workers[id].phase.Scanning? && world.workers[id].lease == world.db.generation
    ensures world.workers[id].phase.next
            == if world.db.checkpoint.Some? then world.db.checkpoint.value.number + 1 else config.start
    ensures Agrees(Tip(world.db), world.workers[id].chain)
  {
    assert WorkerOk(world.db, world.workers[id], config);
  }

  // ---- A chain shorter than the confirmations ----

  /** A chain without enough blocks is not looked at: the synchronisation stops at once and writes nothing, whether
      or not the record has left that chain. */
  lemma ShortChainStops(world: World, id: WorkerId, config: Config)
    requires id in world.workers && world.workers[id].phase.Started? && config.rangeSize > 0
    ensures var after := Work(world, id, config);
            && after.db == world.db
            && (|world.workers[id].chain| <= config.confirmations ==> after.workers[id].phase.Stopped?)
            && (after.workers[id].phase.Stopped? <==>
                |world.workers[id].chain| <= config.confirmations
                || (world.db.checkpoint.Some? && world.db.checkpoint.value.number >= |world.workers[id].chain|))
  {
  }

  function LostChain(): seq<Block> { [Block(0, [Deposit("d", "w", 5)])] }

  /** The record of the old chain's one deposit. */
  function LostRecord(): ChainDb {
    ChainDb(1, Some(Checkpoint(0, LostChain())), map[0 := LostChain()],
            [DepositEvent("d", 0, LostChain(), "w", 5, Unattributed, 0, None, None)], map[], [])
  }

  lemma LostRecordSynced()
    ensures Synced(LostRecord(), 0) && LiveViews(LostRecord().events) == {View("d", 0, LostChain(), 5)}
  {
    var row := LostRecord().events[0];
    assert LostChain()[..1] == LostChain();
    assert LogView(LostChain(), 0, 0) == ViewOf(row);
    assert LiveViews([row]) == {ViewOf(row)} by {
      assert ViewOf([row][0]) in LiveViews([row]);
    }
    assert ChainViews(LostChain(), 0) == {ViewOf(row)};
    assert LostChain()[0].deposits[0].wallet == row.wallet;
    assert WalletOnChain(LostChain(), row);
  }

  /** Such a stop can leave a deposit on record that the chain no longer has. */
  lemma ShortChainLeavesOldDeposits()
    ensures var now := [Block(1, [])];
            var config := Config(0, 3, 10, "c");
            var world := World(LostRecord(), Some(0), map[0 := Worker(1, now, Started)], [1]);
            && WorldOk(world, config)
            && Work(world, 0, config).workers[0].phase.Stopped?
            && LiveViews(Work(world, 0, config).db.events) != ChainViews(now, 0)
  {
    LostRecordSynced();
    assert ChainViews([Block(1, [])], 0) == {};
  }

  // ---- Whose deposit it is ----

  /** Over all interleavings a credited row is a deposit of the checkpoint's chain: same id, block, amount and
      wallet. */
  lemma CreditedIsOnChain(worlds: seq<World>, events: seq<Event>, config: Config, k: nat, i: nat)
    requires WorldRun(worlds, events, config) && k < |worlds|
    requires i < |worlds[k].db.events| && worlds[k].db.events[i].status == Credited
    ensures var e, tip := worlds[k].db.events[i], Tip(worlds[k].db);
            && config.start <= e.number < |tip| && e.hash == tip[..e.number + 1]
            && Deposit(e.id, e.wallet, e.amount) in tip[e.number].deposits
  {
    EveryInterleaving(worlds, events, config, k);
    OwnedDeposit(worlds[k].db, config.start, i);
  }

  lemma OwnedDeposit(db: ChainDb, start: nat, i: nat)
    requires Synced(db, start) && i < |db.events| && Live(db.events[i]) && WalletOnChain(Tip(db), db.events[i])
    ensures var e, tip := db.events[i], Tip(db);
            && start <= e.number < |tip| && e.hash == tip[..e.number + 1]
            && Deposit(e.id, e.wallet, e.amount) in tip[e.number].deposits
  {
    var e, tip := db.events[i], Tip(db);
    assert ViewOf(e) in LiveViews(db.events);
    var n: nat, j: nat :| start <= n < |tip| && j < |tip[n].deposits| && ViewOf(e) == LogView(tip, n, j);
    var m: nat :| m < |tip[e.number].deposits| && tip[e.number].deposits[m].id == e.id
                  && tip[e.number].deposits[m].wallet == e.wallet;
    assert tip[n].deposits[j].id == tip[e.number].deposits[m].id;
    assert tip[e.number].deposits[m] == Deposit(e.id, e.wallet, e.amount);
  }

  /** Over all interleavings a live row can name another wallet than its deposit's only when it was reorganised
      before and nobody has been credited for it since. */
  lemma WrongWalletIsReimported(worlds: seq<World>, events: seq<Event>, config: Config, k: nat, i: nat)
    requires WorldRun(worlds, events, config) && k < |worlds|
    requires i < |worlds[k].db.events| && Live(worlds[k].db.events[i])
    requires !WalletOnChain(Tip(worlds[k].db), worlds[k].db.events[i])
    ensures worlds[k].db.events[i].status == Unattributed && worlds[k].db.events[i].revision > 0
  {
    EveryInterleaving(worlds, events, config, k);
    assert RowOwned(Tip(worlds[k].db), worlds[k].db.events[i]);
  }
}

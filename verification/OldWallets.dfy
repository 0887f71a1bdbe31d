/** A run of two synchronisations over a reorganisation that leaves a live row with the wallet of a deposit that is
    gone: the one exception to the wallets the indexer vouches for. */
module OldWallets {
  import opened ChainStore
  import opened Fencing
  import opened Indexer
  import opened IndexerService
  import opened Ledger
  import opened Sealing
  import opened Sequences
  import opened Wrappers

  const SMALL := Config(0, 0, 10, "c")

  function OneDeposit(salt: int, wallet: Wallet): seq<Block> { [Block(salt, [Deposit("d", wallet, 7)])] }

  function ImportedRow(chain: seq<Block>, status: EventStatus, revision: nat): DepositEvent {
    DepositEvent("d", 0, chain, "old", 7, status, revision, None, None)
  }

  /** The tables after the one deposit of a chain was imported with nobody to credit. */
  function ImportedDb(generation: nat, chain: seq<Block>, revision: nat): ChainDb {
    ChainDb(generation, Some(Checkpoint(0, chain)), map[0 := chain], [ImportedRow(chain, Unattributed, revision)],
            map[], [])
  }

  lemma OneLog(salt: int, wallet: Wallet)
    ensures var chain := OneDeposit(salt, wallet);
            && ChainOk(chain) && chain[..1] == chain
            && RangeInputs("c", chain, 0, 1)
               == [DepositInput("d", 0, chain, wallet, 7, TreasuryAccount("c"), EscrowAccount(wallet))]
  {
    var chain := OneDeposit(salt, wallet);
    assert chain[..1] == chain;
    assert LogsIn(chain, 0, 0) == [];
    assert BlockLogs(chain, 0) == [ChainLog(0, chain, Deposit("d", wallet, 7))];
    assert LogsIn(chain, 0, 1) == [ChainLog(0, chain, Deposit("d", wallet, 7))];
  }

  /** Importing the deposit, into empty tables or over its reorganised row. */
  lemma ImportOne(db: ChainDb, salt: int, wallet: Wallet)
    requires db.checkpoint.None? && db.history == map[] && db.users == map[] && db.ledger == []
    requires (db.events == [] && wallet == "old")
             || exists old0: seq<Block>, r: nat :: db.events == [ImportedRow(old0, Reorged, r)]
    ensures var chain := OneDeposit(salt, wallet);
            var r := if db.events == [] then 0 else db.events[0].revision;
            RangeCommit(db, db.generation, chain, 0, 1, "c") == Ok(ImportedDb(db.generation, chain, r))
  {
    OneLog(salt, wallet);
    var chain := OneDeposit(salt, wallet);
    var d := RangeInputs("c", chain, 0, 1)[0];
    var r := if db.events == [] then 0 else db.events[0].revision;
    var row := ImportedRow(chain, Unattributed, r);
    assert CreditAll(db, []) == Ok(db);
    assert [d][..0] == [];
    assert CreditAll(db, [d]) == Credit(db, d);
    assert EventIndex(db.events, "d") == 0;
    assert UnattributedRow(db.events, 0, d) == row;
    assert Upsert(db.events, 0, row) == [row];
    assert Credit(db, d) == Ok(db.(events := [row]));
    assert map[][0 := chain] == map[0 := chain];
  }

  /** Three steps of a fresh worker on the one-block chain scan it into tables without a checkpoint. */
  lemma ScanOne(world: World, id: WorkerId, salt: int, wallet: Wallet)
    requires id in world.workers && world.workers[id].chain == OneDeposit(salt, wallet)
    requires world.workers[id].lease == world.db.generation && world.workers[id].phase == Scanning(0)
    requires var db := world.db;
             && db.checkpoint.None? && db.history == map[] && db.users == map[] && db.ledger == []
             && ((db.events == [] && wallet == "old")
                 || exists old0: seq<Block>, r: nat :: db.events == [ImportedRow(old0, Reorged, r)])
    ensures var w, r := world.workers[id], if world.db.events == [] then 0 else world.db.events[0].revision;
            Work(world, id, SMALL)
            == World(ImportedDb(world.db.generation, w.chain, r), world.holder,
                     world.workers[id := w.(phase := Scanning(1))], world.commits + [w.lease])
  {
    ImportOne(world.db, salt, wallet);
  }

  lemma RewindOne(db: ChainDb, chain: seq<Block>, r: nat)
    requires db == ImportedDb(db.generation, chain, r)
    ensures Rewind(db, db.generation, 0, None)
            == Ok(ChainDb(db.generation, None, map[], [ImportedRow(chain, Reorged, r + 1)], map[], []))
  {
    assert Undone(db, 0, 0) == Ok(db);
    var e := db.events[0];
    assert e == ImportedRow(chain, Unattributed, r);
    assert ReorgedRow(e) == ImportedRow(chain, Reorged, r + 1);
    assert [e][0 := ReorgedRow(e)] == [ReorgedRow(e)];
    assert Reversed(db.ledger, e) == ([], None);
    assert Affected(e, 0);
    assert Undone(db, 0, 1) == Ok(db.(events := [ImportedRow(chain, Reorged, r + 1)]));
    assert HistoryBelow(db.history, 0) == map[];
  }

  function EmptyDb(generation: nat, events: seq<DepositEvent>): ChainDb {
    ChainDb(generation, None, map[], events, map[], [])
  }

  function OldChain(): seq<Block> { OneDeposit(0, "old") }

  function NewChain(): seq<Block> { OneDeposit(1, "new") }

  function Gone(): seq<DepositEvent> { [ImportedRow(OldChain(), Reorged, 1)] }

  /** The first worker scanning the old chain. */
  function FirstAt(phase: Phase): map<WorkerId, Worker> { map[0 := Worker(1, OldChain(), phase)] }

  /** The second worker following the new chain, the first one done. */
  function SecondAt(phase: Phase): map<WorkerId, Worker> { FirstAt(Finished)[1 := Worker(2, NewChain(), phase)] }

  // ---- The worlds of the run ----

  function W0(): World { Fresh(map[]) }

  function W1(): World { World(EmptyDb(1, []), Some(0), FirstAt(Started), []) }

  function W2(): World { World(EmptyDb(1, []), Some(0), FirstAt(Scanning(0)), []) }

  function W3(): World { World(ImportedDb(1, OldChain(), 0), Some(0), FirstAt(Scanning(1)), [1]) }

  function W4(): World { World(ImportedDb(1, OldChain(), 0), None, FirstAt(Finished), [1]) }

  function W5(): World { World(ImportedDb(2, OldChain(), 0), Some(1), SecondAt(Started), [1]) }

  function W6(): World { World(ImportedDb(2, OldChain(), 0), Some(1), SecondAt(Searching(0)), [1]) }

  function W7(): World { World(ImportedDb(2, OldChain(), 0), Some(1), SecondAt(Rewinding(0)), [1]) }

  function W8(): World { World(EmptyDb(2, Gone()), Some(1), SecondAt(Rereading), [1, 2]) }

  function W9(): World { World(EmptyDb(2, Gone()), Some(1), SecondAt(Scanning(0)), [1, 2]) }

  function W10(): World { World(ImportedDb(2, NewChain(), 1), Some(1), SecondAt(Scanning(1)), [1, 2, 2]) }

  lemma Acquired()
    ensures Goes(W0(), Acquire(0, OldChain()), SMALL, W1())
  {
    OneLog(0, "old");
  }

  lemma ReadsNoCheckpoint()
    ensures Goes(W1(), Proceed(0), SMALL, W2())
  {
  }

  lemma Imports()
    ensures Goes(W2(), Proceed(0), SMALL, W3())
  {
    OneLog(0, "old");
    ScanOne(W2(), 0, 0, "old");
  }

  lemma Finishes()
    ensures Goes(W3(), Proceed(0), SMALL, W4())
  {
  }

  lemma AcquiredAgain()
    ensures Goes(W4(), Acquire(1, NewChain()), SMALL, W5())
  {
    OneLog(1, "new");
  }

  lemma FindsMismatch()
    ensures Goes(W5(), Proceed(1), SMALL, W6())
  {
    OneLog(1, "new");
    assert NewChain()[0].salt != OldChain()[0].salt;
  }

  lemma FindsNoAncestor()
    ensures Goes(W6(), Proceed(1), SMALL, W7())
  {
  }

  lemma RewindsAll()
    ensures Goes(W7(), Proceed(1), SMALL, W8())
  {
    RewindOne(ImportedDb(2, OldChain(), 0), OldChain(), 0);
  }

  lemma RereadsNothing()
    ensures Goes(W8(), Proceed(1), SMALL, W9())
  {
  }

  lemma Reimports()
    ensures Goes(W9(), Proceed(1), SMALL, W10())
  {
    var world := W9();
    assert world.db.events == [ImportedRow(OldChain(), Reorged, 1)];
    assert world.workers[1] == Worker(2, NewChain(), Scanning(0));
    ScanOne(world, 1, 1, "new");
    assert world.workers[1 := Worker(2, NewChain(), Scanning(1))] == SecondAt(Scanning(1));
  }

  lemma OldWalletLeft()
    ensures var db := W10().db;
            |db.events| > 0 && Live(db.events[0]) && !WalletOnChain(Tip(db), db.events[0])
  {
    assert "old"[0] != "new"[0];
  }

  lemma OneMore(ws: seq<World>, es: seq<Event>, e: Event, w: World)
    requires WorldRun(ws, es, SMALL) && Goes(ws[|es|], e, SMALL, w)
    ensures WorldRun(ws + [w], es + [e], SMALL)
  {
    var worlds, events := ws + [w], es + [e];
    forall k | 0 <= k < |events| ensures Goes(worlds[k], events[k], SMALL, worlds[k + 1]) {
      if k < |es| {
        assert events[k] == es[k] && worlds[k] == ws[k] && worlds[k + 1] == ws[k + 1];
      }
    }
  }

  /** Two steps more. */
  lemma TwoMore(ws: seq<World>, es: seq<Event>, e: Event, w: World, f: Event, v: World)
    requires WorldRun(ws, es, SMALL) && Goes(ws[|es|], e, SMALL, w) && Goes(w, f, SMALL, v)
    ensures WorldRun(ws + [w, v], es + [e, f], SMALL)
  {
    OneMore(ws, es, e, w);
    assert (ws + [w])[|es + [e]|] == w;
    OneMore(ws + [w], es + [e], f, v);
    assert ws + [w] + [v] == ws + [w, v] && es + [e] + [f] == es + [e, f];
  }

  function Worlds(): seq<World> { [W0(), W1(), W2(), W3(), W4(), W5(), W6(), W7(), W8(), W9(), W10()] }

  function Events(): seq<Event> {
    [Acquire(0, OldChain()), Proceed(0), Proceed(0), Proceed(0),
     Acquire(1, NewChain()), Proceed(1), Proceed(1), Proceed(1), Proceed(1), Proceed(1)]
  }

  lemma FirstHalf()
    ensures WorldRun(Worlds()[..7], Events()[..6], SMALL)
  {
    Acquired();
    ReadsNoCheckpoint();
    Imports();
    Finishes();
    AcquiredAgain();
    FindsMismatch();
    assert WorldRun([W0()], [], SMALL);
    TwoMore([W0()], [], Acquire(0, OldChain()), W1(), Proceed(0), W2());
    assert [W0()] + [W1(), W2()] == Worlds()[..3] && [] + [Acquire(0, OldChain()), Proceed(0)] == Events()[..2];
    TwoMore(Worlds()[..3], Events()[..2], Proceed(0), W3(), Proceed(0), W4());
    assert Worlds()[..3] + [W3(), W4()] == Worlds()[..5] && Events()[..2] + [Proceed(0), Proceed(0)] == Events()[..4];
    TwoMore(Worlds()[..5], Events()[..4], Acquire(1, NewChain()), W5(), Proceed(1), W6());
    assert Worlds()[..5] + [W5(), W6()] == Worlds()[..7];
    assert Events()[..4] + [Acquire(1, NewChain()), Proceed(1)] == Events()[..6];
  }

  /** The exception happens: two synchronisations over a reorganisation leave a live row with the wallet of the deposit
      that is gone. */
  lemma WrongWalletIsReachable()
    ensures WorldRun(Worlds(), Events(), SMALL)
    ensures var db := Worlds()[|Events()|].db;
            |db.events| > 0 && Live(db.events[0]) && !WalletOnChain(Tip(db), db.events[0])
  {
    FirstHalf();
    FindsNoAncestor();
    RewindsAll();
    RereadsNothing();
    Reimports();
    TwoMore(Worlds()[..7], Events()[..6], Proceed(1), W7(), Proceed(1), W8());
    assert Worlds()[..7] + [W7(), W8()] == Worlds()[..9] && Events()[..6] + [Proceed(1), Proceed(1)] == Events()[..8];
    TwoMore(Worlds()[..9], Events()[..8], Proceed(1), W9(), Proceed(1), W10());
    assert Worlds()[..9] + [W9(), W10()] == Worlds() && Events()[..8] + [Proceed(1), Proceed(1)] == Events();
    OldWalletLeft();
  }
}

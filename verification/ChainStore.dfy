/** The database side of the deposit indexer: lease, checkpoints, deposit events and their ledger postings. */
module ChainStore {
  import opened Ledger
  import opened Sequences
  import opened Wrappers

  type Wallet = string

  type UserId = string

  /** A deposit log of a block. */
  datatype Deposit = Deposit(id: DepositId, wallet: Wallet, amount: int)

  /** A block with its deposit logs; the salt tells apart blocks with equal logs. */
  datatype Block = Block(salt: int, deposits: seq<Deposit>)

  /** A block's hash determines the whole chain up to it, and is modelled as that chain. */
  type BlockHash = seq<Block>

  datatype Checkpoint = Checkpoint(number: nat, hash: BlockHash)

  datatype EventStatus = Credited | Unattributed | Reorged

  datatype DepositEvent = DepositEvent(
    id: DepositId,
    number: nat,
    hash: BlockHash,
    wallet: Wallet,
    amount: int,
    status: EventStatus,
    revision: nat,
    user: Option<UserId>,
    credit: Option<Reference>)

  datatype DepositInput = DepositInput(
    id: DepositId,
    number: nat,
    hash: BlockHash,
    wallet: Wallet,
    amount: int,
    treasury: AccountId,
    escrow: AccountId)

  datatype ChainDb = ChainDb(
    generation: nat,
    checkpoint: Option<Checkpoint>,
    history: map<nat, BlockHash>,
    events: seq<DepositEvent>,
    users: map<Wallet, UserId>,
    ledger: seq<Transaction>)

  datatype ChainError = FenceLost | PostingFailed(error: LedgerError)

  function EscrowAccount(wallet: Wallet): AccountId { "escrow:" + wallet }

  function ReservedAccount(wallet: Wallet): AccountId { "withdrawal-reserved:" + wallet }

  function TreasuryAccount(contract: string): AccountId { "treasury:" + contract }

  function EventWith(id: DepositId): DepositEvent -> bool { (e: DepositEvent) => e.id == id }

  function EventIndex(events: seq<DepositEvent>, id: DepositId): (i: nat)
    ensures i <= |events|
    ensures i < |events| ==> events[i].id == id
    ensures forall k | 0 <= k < i :: events[k].id != id
  {
    FirstWhere(events, EventWith(id))
  }

  // ---- Crediting a deposit ----

  predicate Live(e: DepositEvent) { e.status != Reorged }

  /** The row with this index replaced, or appended when the index is past the end. */
  function Upsert(events: seq<DepositEvent>, i: nat, e: DepositEvent): seq<DepositEvent>
    requires i <= |events|
  {
    if i < |events| then events[i := e] else events + [e]
  }

  function NewRow(d: DepositInput): DepositEvent {
    DepositEvent(d.id, d.number, d.hash, d.wallet, d.amount, Unattributed, 0, None, None)
  }

  /** The row of a deposit nobody can be credited for; a row written before keeps its wallet. */
  function UnattributedRow(events: seq<DepositEvent>, i: nat, d: DepositInput): DepositEvent
    requires i <= |events|
  {
    if i == |events| then NewRow(d)
    else events[i].(number := d.number, hash := d.hash, amount := d.amount, status := Unattributed)
  }

  function CreditRef(events: seq<DepositEvent>, i: nat, id: DepositId): Reference
    requires i <= |events|
  {
    DepositCredit(id, if i < |events| then events[i].revision else 0)
  }

  function CreditedRow(events: seq<DepositEvent>, i: nat, d: DepositInput, user: UserId): DepositEvent
    requires i <= |events|
  {
    DepositEvent(d.id, d.number, d.hash, d.wallet, d.amount, Credited,
                 if i < |events| then events[i].revision else 0, Some(user), Some(CreditRef(events, i, d.id)))
  }

  function Credit(db: ChainDb, d: DepositInput): Result<ChainDb, ChainError> {
    var i := EventIndex(db.events, d.id);
    if i < |db.events| && Live(db.events[i]) then Ok(db)
    else if d.wallet !in db.users then
      Ok(db.(events := Upsert(db.events, i, UnattributedRow(db.events, i, d))))
    else
      var (ledger, posted) := Post(db.ledger, CreditRef(db.events, i, d.id),
                                   Moving(d.treasury, d.escrow, d.amount), None);
      if posted.Err? then Err(PostingFailed(posted.error))
      else Ok(db.(events := Upsert(db.events, i, CreditedRow(db.events, i, d, db.users[d.wallet])), ledger := ledger))
  }

  function CreditAll(db: ChainDb, ds: seq<DepositInput>): Result<ChainDb, ChainError> {
    if |ds| == 0 then Ok(db)
    else
      match CreditAll(db, ds[..|ds| - 1])
      case Err(e) => Err(e)
      case Ok(before) => Credit(before, ds[|ds| - 1])
  }

  /** A checkpoint never moves backwards here. */
  function StoreCheckpoint(db: ChainDb, c: Checkpoint): ChainDb {
    if db.checkpoint.Some? && db.checkpoint.value.number > c.number then db
    else db.(history := db.history[c.number := c.hash], checkpoint := Some(c))
  }

  /** One transaction: every deposit of the range and its checkpoint, or nothing. */
  function CommitRange(db: ChainDb, generation: nat, ds: seq<DepositInput>, c: Checkpoint)
    : Result<ChainDb, ChainError>
  {
    if generation != db.generation then Err(FenceLost)
    else
      match CreditAll(db, ds)
      case Err(e) => Err(e)
      case Ok(credited) => Ok(StoreCheckpoint(credited, c))
  }

  // ---- Rewinding ----

  predicate Affected(e: DepositEvent, from: nat) { e.number >= from && Live(e) }

  function Negated(es: seq<Entry>): (r: seq<Entry>)
    ensures |r| == |es|
    ensures forall i | 0 <= i < |r| :: r[i] == Entry(es[i].account, -es[i].amount)
  {
    seq(|es|, i requires 0 <= i < |es| => Entry(es[i].account, -es[i].amount))
  }

  function ReorgedRow(e: DepositEvent): DepositEvent {
    e.(status := Reorged, revision := e.revision + 1, credit := None)
  }

  /** The posting that undoes the event's credit, if it has one. */
  function Reversed(ledger: seq<Transaction>, e: DepositEvent): (seq<Transaction>, Option<LedgerError>) {
    if e.credit.None? || TransactionIndex(ledger, e.credit.value) == |ledger| then (ledger, None)
    else
      var entries := ledger[TransactionIndex(ledger, e.credit.value)].entries;
      var (after, posted) := Post(ledger, DepositReversal(e.id, e.revision), Negated(entries), None);
      (after, if posted.Err? then Some(posted.error) else None)
  }

  /** The first k rows gone through: those affected are marked reorged and reversed. */
  function Undone(db: ChainDb, from: nat, k: nat): (r: Result<ChainDb, ChainError>)
    requires k <= |db.events|
    ensures r.Ok? ==> |r.value.events| == |db.events|
  {
    if k == 0 then Ok(db)
    else
      match Undone(db, from, k - 1)
      case Err(e) => Err(e)
      case Ok(before) =>
        var e := db.events[k - 1];
        if !Affected(e, from) then Ok(before)
        else
          var (ledger, fault) := Reversed(before.ledger, e);
          if fault.Some? then Err(PostingFailed(fault.value))
          else Ok(before.(events := before.events[k - 1 := ReorgedRow(e)], ledger := ledger))
  }

  function HistoryBelow(history: map<nat, BlockHash>, from: nat): (r: map<nat, BlockHash>)
    ensures forall n :: n in r <==> n in history && n < from
    ensures forall n | n in r :: r[n] == history[n]
  {
    map n | n in history && n < from :: history[n]
  }

  function Rewind(db: ChainDb, generation: nat, from: nat, c: Option<Checkpoint>): Result<ChainDb, ChainError> {
    if generation != db.generation then Err(FenceLost)
    else
      match Undone(db, from, |db.events|)
      case Err(e) => Err(e)
      case Ok(undone) =>
        var kept := HistoryBelow(db.history, from);
        Ok(undone.(history := if c.Some? then kept[c.value.number := c.value.hash] else kept, checkpoint := c))
  }

  /** The checkpoints stored below a block, the highest first. */
  function Descending(history: map<nat, BlockHash>, below: nat): seq<Checkpoint> {
    if below == 0 then []
    else
      var rest := Descending(history, below - 1);
      if below - 1 in history then [Checkpoint(below - 1, history[below - 1])] + rest else rest
  }

  lemma {:induction false} DescendingMeaning(history: map<nat, BlockHash>, below: nat)
    ensures forall c :: c in Descending(history, below) <==>
                        c.number < below && c.number in history && c.hash == history[c.number]
    ensures forall i, j | 0 <= i < j < |Descending(history, below)| ::
              Descending(history, below)[i].number > Descending(history, below)[j].number
  {
    if below > 0 {
      DescendingMeaning(history, below - 1);
      var rest := Descending(history, below - 1);
      assert forall i | 0 <= i < |rest| :: rest[i] in rest;
    }
  }

  // ---- The tables ----

  class ChainTables {
    var generation: nat
    var checkpoint: Option<Checkpoint>
    var history: map<nat, BlockHash>
    var events: seq<DepositEvent>
    var users: map<Wallet, UserId>
    const book: LedgerBook

    function Contents(): ChainDb
      reads this, book
    {
      ChainDb(generation, checkpoint, history, events, users, book.transactions)
    }

    constructor (users: map<Wallet, UserId>, book: LedgerBook)
      ensures this.book == book
      ensures generation == 0 && checkpoint.None? && history == map[] && events == [] && this.users == users
    {
      generation, checkpoint, history, events := 0, None, map[], [];
      this.users := users;
      this.book := book;
    }

    /** Each holder of the lock gets a lease generation of its own. */
    method AcquireLease() returns (lease: nat)
      modifies this`generation
      ensures lease == old(generation) + 1 == generation
    {
      generation := generation + 1;
      lease := generation;
    }

    method CreditDeposit(d: DepositInput) returns (fault: Option<ChainError>)
      modifies this`events, book
      ensures fault.None? ==> Credit(old(Contents()), d) == Ok(Contents())
      ensures fault.Some? ==> Credit(old(Contents()), d) == Err(fault.value)
    {
      var i := EventIndex(events, d.id);
      if i < |events| && events[i].status != Reorged {
        return None;
      }
      if d.wallet !in users {
        if i == |events| {
          events := events + [NewRow(d)];
        } else {
          events := events[i := events[i].(number := d.number, hash := d.hash, amount := d.amount,
                                           status := Unattributed)];
        }
        return None;
      }
      var revision := if i < |events| then events[i].revision else 0;
      var posted := book.PostTransaction(DepositCredit(d.id, revision), Moving(d.treasury, d.escrow, d.amount), None);
      if posted.Err? {
        return Some(PostingFailed(posted.error));
      }
      var row := DepositEvent(d.id, d.number, d.hash, d.wallet, d.amount, Credited, revision, Some(users[d.wallet]),
                              Some(DepositCredit(d.id, revision)));
      if i < |events| {
        events := events[i := row];
      } else {
        events := events + [row];
      }
      return None;
    }

    method StoreCheckpointRow(c: Checkpoint)
      modifies this`history, this`checkpoint
      ensures Contents() == StoreCheckpoint(old(Contents()), c)
    {
      if checkpoint.Some? && checkpoint.value.number > c.number {
        return;
      }
      history := history[c.number := c.hash];
      checkpoint := Some(c);
    }

    /** The range in one transaction; a failing deposit rolls everything back. */
    method CommitChainDepositRange(ds: seq<DepositInput>, c: Checkpoint, lease: nat) returns (fault: Option<ChainError>)
      modifies this`events, this`history, this`checkpoint, book
      ensures fault.None? ==> CommitRange(old(Contents()), lease, ds, c) == Ok(Contents())
      ensures fault.Some? ==> CommitRange(old(Contents()), lease, ds, c) == Err(fault.value)
                              && Contents() == old(Contents())
    {
      if lease != generation {
        return Some(FenceLost);
      }
      var savedEvents, savedBook := events, book.transactions;
      for k := 0 to |ds|
        invariant CreditAll(old(Contents()), ds[..k]) == Ok(Contents())
        invariant generation == old(generation) && history == old(history) && checkpoint == old(checkpoint)
        invariant users == old(users)
      {
        assert ds[..k + 1][..k] == ds[..k];
        fault := CreditDeposit(ds[k]);
        if fault.Some? {
          events := savedEvents;
          book.transactions := savedBook;
          CreditStops(old(Contents()), ds, k + 1);
          return;
        }
      }
      assert ds[..|ds|] == ds;
      StoreCheckpointRow(c);
      return None;
    }

    method ReverseCredit(e: DepositEvent) returns (fault: Option<LedgerError>)
      modifies book
      ensures (book.transactions, fault) == Reversed(old(book.transactions), e)
    {
      if e.credit.None? {
        return None;
      }
      var i := TransactionIndex(book.transactions, e.credit.value);
      if i == |book.transactions| {
        return None;
      }
      var undo := Negated(book.transactions[i].entries);
      var posted := book.PostTransaction(DepositReversal(e.id, e.revision), undo, None);
      return if posted.Err? then Some(posted.error) else None;
    }

    /** Reverses one event and marks it reorged. */
    method UndoEvent(k: nat) returns (fault: Option<LedgerError>)
      requires k < |events|
      modifies this`events, book
      ensures (book.transactions, fault) == Reversed(old(book.transactions), old(events[k]))
      ensures events == if fault.None? then old(events)[k := ReorgedRow(old(events[k]))] else old(events)
    {
      var e := events[k];
      fault := ReverseCredit(e);
      if fault.None? {
        events := events[k := ReorgedRow(e)];
      }
    }

    method UndoAffected(from: nat) returns (fault: Option<ChainError>)
      modifies this`events, book
      ensures fault.None? ==> Undone(old(Contents()), from, |old(events)|) == Ok(Contents())
      ensures fault.Some? ==> Undone(old(Contents()), from, |old(events)|) == Err(fault.value)
    {
      ghost var db0 := Contents();
      var n := |events|;
      for k := 0 to n
        invariant |events| == n == |db0.events|
        invariant Undone(db0, from, k) == Ok(Contents())
        invariant events[k..] == db0.events[k..]
      {
        assert events[k] == events[k..][0] == db0.events[k];
        assert events[k..][1..] == events[k + 1..];
        if Affected(events[k], from) {
          var failed := UndoEvent(k);
          if failed.Some? {
            UndoStops(db0, from, k + 1);
            return Some(PostingFailed(failed.value));
          }
        }
      }
      return None;
    }

    /** The rewind in one transaction: reversals, reorged rows, and the checkpoint before them. */
    method RewindChainDeposits(from: nat, c: Option<Checkpoint>, lease: nat) returns (fault: Option<ChainError>)
      modifies this`events, this`history, this`checkpoint, book
      ensures fault.None? ==> Rewind(old(Contents()), lease, from, c) == Ok(Contents())
      ensures fault.Some? ==> Rewind(old(Contents()), lease, from, c) == Err(fault.value)
                              && Contents() == old(Contents())
    {
      if lease != generation {
        return Some(FenceLost);
      }
      var savedEvents, savedBook := events, book.transactions;
      fault := UndoAffected(from);
      if fault.Some? {
        events := savedEvents;
        book.transactions := savedBook;
        return;
      }
      var kept := HistoryBelow(history, from);
      if c.Some? {
        history := kept[c.value.number := c.value.hash];
      } else {
        history := kept;
      }
      checkpoint := c;
    }
  }

  lemma {:induction false} CreditStops(db: ChainDb, ds: seq<DepositInput>, k: nat)
    requires k <= |ds| && CreditAll(db, ds[..k]).Err?
    ensures CreditAll(db, ds) == CreditAll(db, ds[..k])
  {
    if k < |ds| {
      assert ds[..|ds| - 1][..k] == ds[..k];
      CreditStops(db, ds[..|ds| - 1], k);
    } else {
      assert ds[..k] == ds;
    }
  }

  lemma {:induction false} UndoStops(db: ChainDb, from: nat, k: nat)
    requires k <= |db.events| && Undone(db, from, k).Err?
    ensures Undone(db, from, |db.events|) == Undone(db, from, k)
  {
    UndoStopsAt(db, from, k, |db.events|);
  }

  lemma {:induction false} UndoStopsAt(db: ChainDb, from: nat, k: nat, n: nat)
    requires k <= n <= |db.events| && Undone(db, from, k).Err?
    ensures Undone(db, from, n) == Undone(db, from, k)
  {
    if k < n {
      UndoStopsAt(db, from, k, n - 1);
    }
  }

  lemma {:induction false} CreditAllFault(db: ChainDb, ds: seq<DepositInput>)
    ensures CreditAll(db, ds).Err? ==> CreditAll(db, ds).error.PostingFailed?
  {
    if |ds| > 0 {
      CreditAllFault(db, ds[..|ds| - 1]);
    }
  }

  lemma {:induction false} UndoneFault(db: ChainDb, from: nat, k: nat)
    requires k <= |db.events|
    ensures Undone(db, from, k).Err? ==> Undone(db, from, k).error.PostingFailed?
  {
    if k > 0 {
      UndoneFault(db, from, k - 1);
    }
  }

  /** The fence refuses a commit exactly when the lease is not the newest. */
  lemma FenceGuards(db: ChainDb, lease: nat, ds: seq<DepositInput>, c: Checkpoint, from: nat, point: Option<Checkpoint>)
    ensures CommitRange(db, lease, ds, c) == Err(FenceLost) <==> lease != db.generation
    ensures Rewind(db, lease, from, point) == Err(FenceLost) <==> lease != db.generation
  {
    CreditAllFault(db, ds);
    UndoneFault(db, from, |db.events|);
  }
}

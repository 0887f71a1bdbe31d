/** What the ledger's balances mean: every account holds exactly what the deposit events and withdrawals say. */
module Balances {
  import opened ChainStore
  import opened Indexer
  import opened Ledger
  import opened Sealing
  import opened Sequences
  import opened Withdrawals
  import opened Wrappers

  // ---- Account names ----

  lemma AccountsDiffer(a: string, b: string)
    ensures EscrowAccount(a) == EscrowAccount(b) <==> a == b
    ensures ReservedAccount(a) == ReservedAccount(b) <==> a == b
    ensures TreasuryAccount(a) == TreasuryAccount(b) <==> a == b
    ensures EscrowAccount(a) != ReservedAccount(b) && EscrowAccount(a) != TreasuryAccount(b)
    ensures ReservedAccount(a) != TreasuryAccount(b)
  {
    assert EscrowAccount(a)[7..] == a && EscrowAccount(b)[7..] == b;
    assert ReservedAccount(a)[20..] == a && ReservedAccount(b)[20..] == b;
    assert TreasuryAccount(a)[9..] == a && TreasuryAccount(b)[9..] == b;
    assert EscrowAccount(a)[0] == 'e' && ReservedAccount(a)[0] == 'w' && TreasuryAccount(b)[0] == 't';
    assert ReservedAccount(b)[0] == 'w';
  }

  // ---- Posting a fresh transfer ----

  lemma MovingNet(from: AccountId, to: AccountId, amount: int, a: AccountId)
    ensures Net(Moving(from, to, amount), a) == (if a == from then -amount else 0) + (if a == to then amount else 0)
    ensures Total(Moving(from, to, amount)) == 0
  {
    var es := Moving(from, to, amount);
    assert es[..1] == [Entry(from, -amount)];
    assert es[..1][..0] == [];
    assert Net(es, a) == Net(es[..1], a) + AmountIf(Only(a))(es[1]);
    assert Net(es[..1], a) == Net(es[..1][..0], a) + AmountIf(Only(a))(es[0]);
    assert Total(es) == Total(es[..1]) + amount;
    assert Total(es[..1]) == Total(es[..1][..0]) - amount;
  }

  lemma MovingPrepares(from: AccountId, to: AccountId, amount: int)
    requires from != to && amount > 0
    ensures Prepare(Moving(from, to, amount)) == Ok(Normalize(Moving(from, to, amount)))
  {
    MovingNet(from, to, amount, to);
    PrepareMeaning(Moving(from, to, amount));
  }

  /** The source check on a transfer asks exactly for the amount to be there. */
  lemma MovingCovers(ledger: seq<Transaction>, from: AccountId, to: AccountId, amount: int)
    requires from != to && amount > 0
    ensures SourceCovers(ledger, Normalize(Moving(from, to, amount)), from) <==> Balance(ledger, from) >= amount
  {
    var entries := Normalize(Moving(from, to, amount));
    MovingNet(from, to, amount, from);
    NormalizeKeepsNets(Moving(from, to, amount), Only(from));
    if AccountIndex(entries, from) == |entries| {
      NetAbsent(entries, from);
      assert false;
    }
    SourceNet(entries, from);
  }

  lemma IndexStays(ledger: seq<Transaction>, t: Transaction, reference: Reference)
    requires TransactionIndex(ledger, reference) < |ledger|
    ensures TransactionIndex(ledger + [t], reference) == TransactionIndex(ledger, reference)
  {
    FirstWhereAppend(ledger, t, PostedUnder(reference));
  }

  // ---- The equations ----

  /** What an event contributes to an account: the credited amount, moved from the treasury to the wallet's escrow. */
  function EventShare(contract: string, a: AccountId): DepositEvent -> int {
    (e: DepositEvent) =>
      if e.status == Credited then Net(Moving(TreasuryAccount(contract), EscrowAccount(e.wallet), e.amount), a) else 0
  }

  function Outcomes(w: Withdrawal): seq<Entry> {
    match w.status
    case Reserved => []
    case Completed => Resolve(w, Complete)
    case Released => Resolve(w, Release)
  }

  function Held(w: Withdrawal): seq<Entry> { Moving(EscrowAccount(w.wallet), ReservedAccount(w.wallet), w.amount) }

  /** What a withdrawal contributes: the hold, and whatever became of it. */
  function WithdrawalShare(a: AccountId): Withdrawal -> int {
    (w: Withdrawal) => Net(Held(w), a) + Net(Outcomes(w), a)
  }

  /** The tables all modules write. */
  datatype Bank = Bank(events: seq<DepositEvent>, withdrawals: seq<Withdrawal>, ledger: seq<Transaction>)

  function Expected(b: Bank, contract: string, a: AccountId): int {
    Sum(b.events, EventShare(contract, a)) + Sum(b.withdrawals, WithdrawalShare(a))
  }

  ghost predicate Balanced(b: Bank, contract: string) {
    forall a: AccountId :: Balance(b.ledger, a) == Expected(b, contract, a)
  }

  // ---- Which references are in use ----

  /** A reference in the ledger belongs to an event or withdrawal that has got that far. */
  predicate Accounted(b: Bank, reference: Reference) {
    match reference
    case DepositCredit(id, r) =>
      exists i :: 0 <= i < |b.events| && b.events[i].id == id && CreditUsed(b.events[i], r)
    case DepositReversal(id, r) => exists i :: 0 <= i < |b.events| && b.events[i].id == id && r < b.events[i].revision
    case WithdrawalReserve(id) => exists i :: 0 <= i < |b.withdrawals| && b.withdrawals[i].id == id
    case WithdrawalCompleted(id) =>
      exists i :: 0 <= i < |b.withdrawals| && b.withdrawals[i].id == id && b.withdrawals[i].status == Completed
    case WithdrawalReleased(id) =>
      exists i :: 0 <= i < |b.withdrawals| && b.withdrawals[i].id == id && b.withdrawals[i].status == Released
    case Named(_) => false
  }

  predicate CreditUsed(e: DepositEvent, r: nat) {
    r < e.revision || (r == e.revision && e.status == Credited)
  }

  predicate AllAccounted(b: Bank) {
    forall i | 0 <= i < |b.ledger| :: Accounted(b, b.ledger[i].reference)
  }

  /** A credited event points at its posting; no other event points anywhere. */
  predicate CreditOk(b: Bank, contract: string, e: DepositEvent) {
    && (e.status == Credited <==> e.credit.Some?)
    && (e.status == Credited ==>
          && e.amount > 0
          && e.credit == Some(DepositCredit(e.id, e.revision))
          && TransactionIndex(b.ledger, e.credit.value) < |b.ledger|
          && b.ledger[TransactionIndex(b.ledger, e.credit.value)].entries
             == Normalize(Moving(TreasuryAccount(contract), EscrowAccount(e.wallet), e.amount)))
  }

  predicate CreditsOk(b: Bank, contract: string) {
    forall i | 0 <= i < |b.events| :: CreditOk(b, contract, b.events[i])
  }

  predicate UniqueWithdrawals(ws: seq<Withdrawal>) {
    && (forall i, j | 0 <= i < j < |ws| :: ws[i].id != ws[j].id)
    && (forall i | 0 <= i < |ws| :: ws[i].amount > 0)
  }

  ghost predicate BankFacts(b: Bank, contract: string) {
    && UniqueEvents(b.events) && UniqueWithdrawals(b.withdrawals) && BooksOk(b.ledger)
    && AllAccounted(b) && CreditsOk(b, contract) && Balanced(b, contract)
  }

  ghost predicate BankOk(b: Bank, contract: string) {
    forall k {:trigger Open(BankSeal, k)} :: Open(BankSeal, k) ==> BankFacts(b, contract)
  }

  // ---- One posting ----

  /** A posting under a new reference, by a transfer between different accounts, is taken unless the source lacks the
      funds. */
  lemma FreshPost(ledger: seq<Transaction>, reference: Reference, from: AccountId, to: AccountId, amount: int,
                  source: Option<AccountId>)
    requires BooksOk(ledger) && TransactionIndex(ledger, reference) == |ledger| && from != to && amount > 0
    requires source.None? || source == Some(from)
    ensures var es := Moving(from, to, amount);
            var (after, posted) := Post(ledger, reference, es, source);
            if source.None? || Balance(ledger, from) >= amount
            then posted.Ok? && after == ledger + [Transaction(reference, Normalize(es))] && BooksOk(after)
            else posted == Err(InsufficientFunds) && after == ledger
  {
    MovingPrepares(from, to, amount);
    MovingCovers(ledger, from, to, amount);
    PostKeepsBooks(ledger, reference, Moving(from, to, amount), source);
  }

  lemma {:induction false} NegatedNet(es: seq<Entry>, f: AccountId -> bool)
    ensures NetOf(Negated(es), f) == -NetOf(es, f)
  {
    if |es| > 0 {
      var n := |es| - 1;
      assert Negated(es)[..n] == Negated(es[..n]);
      NegatedNet(es[..n], f);
    }
  }

  /** The posting that undoes a transfer is taken too. */
  lemma FreshReversal(ledger: seq<Transaction>, reference: Reference, from: AccountId, to: AccountId, amount: int)
    requires BooksOk(ledger) && TransactionIndex(ledger, reference) == |ledger| && from != to && amount > 0
    ensures var es := Negated(Normalize(Moving(from, to, amount)));
            var (after, posted) := Post(ledger, reference, es, None);
            && posted.Ok? && after == ledger + [Transaction(reference, Normalize(es))] && BooksOk(after)
            && forall a :: Net(Normalize(es), a) == -Net(Moving(from, to, amount), a)
  {
    var moved := Normalize(Moving(from, to, amount));
    var es := Negated(moved);
    forall a ensures Net(es, a) == -Net(Moving(from, to, amount), a) && Net(Normalize(es), a) == Net(es, a) {
      NegatedNet(moved, Only(a));
      NormalizeKeepsNets(Moving(from, to, amount), Only(a));
      NormalizeKeepsNet(es, a);
    }
    NegatedNet(moved, Anyone());
    NormalizeKeepsNets(Moving(from, to, amount), Anyone());
    MovingNet(from, to, amount, to);
    PrepareMeaning(es);
    PostKeepsBooks(ledger, reference, es, None);
  }

  /** A reference the tables do not account for is not in the ledger. */
  lemma Unused(b: Bank, reference: Reference)
    requires AllAccounted(b) && !Accounted(b, reference)
    ensures TransactionIndex(b.ledger, reference) == |b.ledger|
  {
    assert forall i | 0 <= i < |b.ledger| :: b.ledger[i].reference != reference;
  }

  lemma BalanceAppends(ledger: seq<Transaction>, t: Transaction, a: AccountId)
    ensures Balance(ledger + [t], a) == Balance(ledger, a) + Net(t.entries, a)
  {
    SumAppend(ledger, t, NetIn(a));
  }

  lemma CreditsStay(b: Bank, contract: string, t: Transaction, e: DepositEvent)
    requires CreditOk(b, contract, e)
    ensures CreditOk(b.(ledger := b.ledger + [t]), contract, e)
  {
    if e.status == Credited {
      IndexStays(b.ledger, t, e.credit.value);
    }
  }

  // ---- Crediting ----

  /** Row i is replaced by one of the same deposit that has got at least as far. */
  predicate RowAdvances(events: seq<DepositEvent>, i: nat, row: DepositEvent) {
    && i <= |events|
    && (i == |events| ==> forall k | 0 <= k < |events| :: events[k].id != row.id)
    && (i < |events| ==> events[i].id == row.id && events[i].revision <= row.revision
                         && (events[i].status == Credited ==> CreditUsed(row, events[i].revision)))
  }

  lemma RowKeepsUnique(events: seq<DepositEvent>, i: nat, row: DepositEvent)
    requires UniqueEvents(events) && RowAdvances(events, i, row)
    ensures UniqueEvents(Upsert(events, i, row))
  {
  }

  lemma RowKeepsAccounted(b: Bank, i: nat, row: DepositEvent, reference: Reference)
    requires Accounted(b, reference) && RowAdvances(b.events, i, row)
    ensures Accounted(b.(events := Upsert(b.events, i, row)), reference)
  {
    var after := Upsert(b.events, i, row);
    match reference {
      case DepositCredit(id, r) =>
        var k :| 0 <= k < |b.events| && b.events[k].id == id && CreditUsed(b.events[k], r);
        assert after[k].id == id && CreditUsed(after[k], r);
      case DepositReversal(id, r) =>
        var k :| 0 <= k < |b.events| && b.events[k].id == id && r < b.events[k].revision;
        assert after[k].id == id && r < after[k].revision;
      case _ =>
    }
  }

  lemma RowKeepsAllAccounted(b: Bank, i: nat, row: DepositEvent)
    requires AllAccounted(b) && RowAdvances(b.events, i, row)
    ensures AllAccounted(b.(events := Upsert(b.events, i, row)))
  {
    forall k | 0 <= k < |b.ledger| ensures Accounted(b.(events := Upsert(b.events, i, row)), b.ledger[k].reference) {
      RowKeepsAccounted(b, i, row, b.ledger[k].reference);
    }
  }

  lemma RowShare(events: seq<DepositEvent>, i: nat, row: DepositEvent, contract: string, a: AccountId)
    requires i <= |events|
    ensures Sum(Upsert(events, i, row), EventShare(contract, a))
            == Sum(events, EventShare(contract, a)) + EventShare(contract, a)(row)
               - (if i < |events| then EventShare(contract, a)(events[i]) else 0)
  {
    if i < |events| {
      SumDiffers(events, EventShare(contract, a), Upsert(events, i, row), EventShare(contract, a), i);
    } else {
      SumAppend(events, row, EventShare(contract, a));
    }
  }

  lemma RowKeepsCredits(b: Bank, contract: string, i: nat, row: DepositEvent)
    requires CreditsOk(b, contract) && i <= |b.events| && CreditOk(b, contract, row)
    ensures CreditsOk(b.(events := Upsert(b.events, i, row)), contract)
  {
    var after := b.(events := Upsert(b.events, i, row));
    forall k | 0 <= k < |after.events| ensures CreditOk(after, contract, after.events[k]) {
      if k != i {
        assert CreditOk(b, contract, b.events[k]);
      }
    }
  }

  /** A row that credits nobody changes no balance. */
  lemma QuietRow(b: Bank, contract: string, i: nat, row: DepositEvent)
    requires BankOk(b, contract) && RowAdvances(b.events, i, row)
    requires row.status != Credited && row.credit.None?
    requires i < |b.events| ==> b.events[i].status != Credited
    ensures BankOk(b.(events := Upsert(b.events, i, row)), contract)
  {
    assert Open(BankSeal, 0);
    RowKeepsUnique(b.events, i, row);
    RowKeepsAllAccounted(b, i, row);
    RowKeepsCredits(b, contract, i, row);
    forall a: AccountId ensures Balance(b.ledger, a) == Expected(b.(events := Upsert(b.events, i, row)), contract, a) {
      RowShare(b.events, i, row, contract, a);
    }
  }

  lemma IndexAtEnd(ledger: seq<Transaction>, t: Transaction)
    requires TransactionIndex(ledger, t.reference) == |ledger|
    ensures TransactionIndex(ledger + [t], t.reference) == |ledger|
  {
    FirstWhereAppend(ledger, t, PostedUnder(t.reference));
  }

  function CreditPosting(contract: string, row: DepositEvent): Transaction {
    Transaction(DepositCredit(row.id, row.revision),
                Normalize(Moving(TreasuryAccount(contract), EscrowAccount(row.wallet), row.amount)))
  }

  lemma CreditedAccounted(b: Bank, contract: string, i: nat, row: DepositEvent)
    requires AllAccounted(b) && RowAdvances(b.events, i, row) && row.status == Credited
    ensures AllAccounted(Bank(Upsert(b.events, i, row), b.withdrawals, b.ledger + [CreditPosting(contract, row)]))
  {
    var advanced := b.(events := Upsert(b.events, i, row));
    var after := advanced.(ledger := b.ledger + [CreditPosting(contract, row)]);
    RowKeepsAllAccounted(b, i, row);
    assert advanced.events[i] == row;
    forall k | 0 <= k < |after.ledger| ensures Accounted(after, after.ledger[k].reference) {
      if k < |b.ledger| {
        assert Accounted(advanced, advanced.ledger[k].reference);
      }
    }
  }

  lemma CreditedBalances(b: Bank, contract: string, i: nat, row: DepositEvent)
    requires Balanced(b, contract) && i <= |b.events| && row.status == Credited
    requires i < |b.events| ==> b.events[i].status != Credited
    ensures Balanced(Bank(Upsert(b.events, i, row), b.withdrawals, b.ledger + [CreditPosting(contract, row)]), contract)
  {
    var after := Bank(Upsert(b.events, i, row), b.withdrawals, b.ledger + [CreditPosting(contract, row)]);
    forall a: AccountId ensures Balance(after.ledger, a) == Expected(after, contract, a) {
      BalanceAppends(b.ledger, CreditPosting(contract, row), a);
      RowShare(b.events, i, row, contract, a);
      NormalizeKeepsNet(Moving(TreasuryAccount(contract), EscrowAccount(row.wallet), row.amount), a);
    }
  }

  /** A credited row and its posting go together. */
  lemma CreditedKeeps(b: Bank, contract: string, i: nat, row: DepositEvent)
    requires BankOk(b, contract) && RowAdvances(b.events, i, row) && row.status == Credited && row.amount > 0
    requires row.credit == Some(DepositCredit(row.id, row.revision))
    requires i < |b.events| ==> b.events[i].status == Reorged && b.events[i].revision == row.revision
    requires BooksOk(b.ledger + [CreditPosting(contract, row)])
    requires TransactionIndex(b.ledger, DepositCredit(row.id, row.revision)) == |b.ledger|
    ensures BankOk(Bank(Upsert(b.events, i, row), b.withdrawals, b.ledger + [CreditPosting(contract, row)]), contract)
  {
    assert Open(BankSeal, 0);
    RowKeepsUnique(b.events, i, row);
    CreditedAccounted(b, contract, i, row);
    CreditedRows(b, contract, i, row);
    CreditedBalances(b, contract, i, row);
  }

  lemma CreditedRows(b: Bank, contract: string, i: nat, row: DepositEvent)
    requires CreditsOk(b, contract) && i <= |b.events| && row.status == Credited && row.amount > 0
    requires row.credit == Some(DepositCredit(row.id, row.revision))
    requires TransactionIndex(b.ledger, DepositCredit(row.id, row.revision)) == |b.ledger|
    ensures CreditsOk(Bank(Upsert(b.events, i, row), b.withdrawals, b.ledger + [CreditPosting(contract, row)]),
                      contract)
  {
    var t := CreditPosting(contract, row);
    var after := Bank(Upsert(b.events, i, row), b.withdrawals, b.ledger + [t]);
    IndexAtEnd(b.ledger, t);
    forall k | 0 <= k < |after.events| ensures CreditOk(after, contract, after.events[k]) {
      if k != i {
        assert CreditOk(b, contract, b.events[k]);
        CreditsStay(b, contract, t, b.events[k]);
      }
    }
  }

  /** A deposit input as the service builds it for a log. */
  predicate InputOk(d: DepositInput, contract: string) {
    d.amount > 0 && d.treasury == TreasuryAccount(contract) && d.escrow == EscrowAccount(d.wallet)
  }

  function BankOf(db: ChainDb, ws: seq<Withdrawal>): Bank { Bank(db.events, ws, db.ledger) }

  /** A credit of this revision has not been posted yet. */
  lemma CreditIsFresh(b: Bank, contract: string, id: DepositId)
    requires BankOk(b, contract)
    requires var i := EventIndex(b.events, id); i < |b.events| ==> b.events[i].status == Reorged
    ensures var i := EventIndex(b.events, id);
            TransactionIndex(b.ledger, CreditRef(b.events, i, id)) == |b.ledger|
  {
    assert Open(BankSeal, 0);
    var i := EventIndex(b.events, id);
    forall k | 0 <= k < |b.events| && b.events[k].id == id ensures k == i {
    }
    Unused(b, CreditRef(b.events, i, id));
  }

  /** Crediting a deposit never fails, and keeps every balance equation. */
  lemma CreditKeepsBank(db: ChainDb, ws: seq<Withdrawal>, d: DepositInput, contract: string)
    requires BankOk(BankOf(db, ws), contract) && InputOk(d, contract)
    ensures Credit(db, d).Ok? && BankOk(BankOf(Credit(db, d).value, ws), contract)
  {
    var b := BankOf(db, ws);
    var i := EventIndex(db.events, d.id);
    if i < |db.events| && Live(db.events[i]) {
    } else if d.wallet !in db.users {
      ReorgedHasNoCredit(b, contract, i);
      QuietRow(b, contract, i, UnattributedRow(db.events, i, d));
    } else {
      CreditIsFresh(b, contract, d.id);
      AccountsDiffer(d.wallet, contract);
      AccountsDiffer(contract, d.wallet);
      assert BooksOk(db.ledger) by {
        assert Open(BankSeal, 0);
      }
      FreshPost(db.ledger, CreditRef(db.events, i, d.id), d.treasury, d.escrow, d.amount, None);
      CreditedKeeps(b, contract, i, CreditedRow(db.events, i, d, db.users[d.wallet]));
    }
  }

  lemma ReorgedHasNoCredit(b: Bank, contract: string, i: nat)
    requires BankOk(b, contract) && (i < |b.events| ==> b.events[i].status == Reorged)
    ensures i < |b.events| ==> b.events[i].credit.None?
  {
    assert Open(BankSeal, 0);
    assert i < |b.events| ==> CreditOk(b, contract, b.events[i]);
  }

  lemma {:induction false} CreditAllKeepsBank(db: ChainDb, ws: seq<Withdrawal>, ds: seq<DepositInput>, contract: string)
    requires BankOk(BankOf(db, ws), contract) && forall k | 0 <= k < |ds| :: InputOk(ds[k], contract)
    ensures CreditAll(db, ds).Ok? && BankOk(BankOf(CreditAll(db, ds).value, ws), contract)
  {
    if |ds| > 0 {
      assert forall k | 0 <= k < |ds| - 1 :: ds[..|ds| - 1][k] == ds[k];
      CreditAllKeepsBank(db, ws, ds[..|ds| - 1], contract);
      CreditKeepsBank(CreditAll(db, ds[..|ds| - 1]).value, ws, ds[|ds| - 1], contract);
    }
  }

  // ---- Reversing ----

  function ReversalPosting(contract: string, e: DepositEvent): Transaction {
    Transaction(DepositReversal(e.id, e.revision),
                Normalize(Negated(Normalize(Moving(TreasuryAccount(contract), EscrowAccount(e.wallet), e.amount)))))
  }

  lemma ReorgedAdvances(events: seq<DepositEvent>, k: nat)
    requires k < |events|
    ensures RowAdvances(events, k, ReorgedRow(events[k]))
    ensures Upsert(events, k, ReorgedRow(events[k])) == events[k := ReorgedRow(events[k])]
  {
  }

  /** A reversal of this revision has not been posted yet. */
  lemma ReversalIsFresh(b: Bank, contract: string, k: nat)
    requires BankOk(b, contract) && k < |b.events|
    ensures TransactionIndex(b.ledger, DepositReversal(b.events[k].id, b.events[k].revision)) == |b.ledger|
  {
    assert Open(BankSeal, 0);
    forall j | 0 <= j < |b.events| && b.events[j].id == b.events[k].id ensures j == k {
    }
    Unused(b, DepositReversal(b.events[k].id, b.events[k].revision));
  }

  lemma ReversedBalances(b: Bank, contract: string, k: nat)
    requires Balanced(b, contract) && k < |b.events| && b.events[k].status == Credited
    requires forall a :: Net(ReversalPosting(contract, b.events[k]).entries, a)
                         == -Net(Moving(TreasuryAccount(contract), EscrowAccount(b.events[k].wallet),
                                        b.events[k].amount), a)
    ensures Balanced(Bank(Upsert(b.events, k, ReorgedRow(b.events[k])), b.withdrawals,
                          b.ledger + [ReversalPosting(contract, b.events[k])]), contract)
  {
    var e := b.events[k];
    var after := Bank(Upsert(b.events, k, ReorgedRow(e)), b.withdrawals, b.ledger + [ReversalPosting(contract, e)]);
    forall a: AccountId ensures Balance(after.ledger, a) == Expected(after, contract, a) {
      BalanceAppends(b.ledger, ReversalPosting(contract, e), a);
      RowShare(b.events, k, ReorgedRow(e), contract, a);
    }
  }

  lemma ReversedAccounted(b: Bank, contract: string, k: nat)
    requires AllAccounted(b) && k < |b.events|
    ensures AllAccounted(Bank(Upsert(b.events, k, ReorgedRow(b.events[k])), b.withdrawals,
                              b.ledger + [ReversalPosting(contract, b.events[k])]))
  {
    var row := ReorgedRow(b.events[k]);
    var advanced := b.(events := Upsert(b.events, k, row));
    var after := advanced.(ledger := b.ledger + [ReversalPosting(contract, b.events[k])]);
    ReorgedAdvances(b.events, k);
    RowKeepsAllAccounted(b, k, row);
    assert advanced.events[k] == row;
    forall j | 0 <= j < |after.ledger| ensures Accounted(after, after.ledger[j].reference) {
      if j < |b.ledger| {
        assert Accounted(advanced, advanced.ledger[j].reference);
      }
    }
  }

  lemma ReversedCredits(b: Bank, contract: string, k: nat, t: Transaction)
    requires CreditsOk(b, contract) && k < |b.events|
    ensures CreditsOk(Bank(Upsert(b.events, k, ReorgedRow(b.events[k])), b.withdrawals, b.ledger + [t]), contract)
  {
    var after := Bank(Upsert(b.events, k, ReorgedRow(b.events[k])), b.withdrawals, b.ledger + [t]);
    forall j | 0 <= j < |after.events| ensures CreditOk(after, contract, after.events[j]) {
      if j != k {
        assert CreditOk(b, contract, b.events[j]);
        CreditsStay(b, contract, t, b.events[j]);
      }
    }
  }

  /** Reversing a credited event posts exactly its opposite. */
  lemma ReversedIs(b: Bank, contract: string, e: DepositEvent)
    requires CreditOk(b, contract, e) && BooksOk(b.ledger) && e.status == Credited
    requires TransactionIndex(b.ledger, DepositReversal(e.id, e.revision)) == |b.ledger|
    ensures Reversed(b.ledger, e) == (b.ledger + [ReversalPosting(contract, e)], None)
    ensures BooksOk(b.ledger + [ReversalPosting(contract, e)])
    ensures forall a :: Net(ReversalPosting(contract, e).entries, a)
                        == -Net(Moving(TreasuryAccount(contract), EscrowAccount(e.wallet), e.amount), a)
  {
    AccountsDiffer(contract, e.wallet);
    AccountsDiffer(e.wallet, contract);
    FreshReversal(b.ledger, DepositReversal(e.id, e.revision), TreasuryAccount(contract), EscrowAccount(e.wallet),
                  e.amount);
  }

  /** Undoing one live event: its credit, if any, is reversed exactly, once. */
  lemma UndoEventKeepsBank(b: Bank, contract: string, k: nat)
    requires BankOk(b, contract) && k < |b.events| && Live(b.events[k])
    ensures var (ledger, fault) := Reversed(b.ledger, b.events[k]);
            && fault.None?
            && BankOk(Bank(b.events[k := ReorgedRow(b.events[k])], b.withdrawals, ledger), contract)
  {
    ReorgedAdvances(b.events, k);
    UndoFacts(b, contract, k);
    if b.events[k].status == Credited {
      ReversalIsFresh(b, contract, k);
      ReversedIs(b, contract, b.events[k]);
      CreditedUndone(b, contract, k);
    } else {
      QuietRow(b, contract, k, ReorgedRow(b.events[k]));
    }
  }

  lemma UndoFacts(b: Bank, contract: string, k: nat)
    requires BankOk(b, contract) && k < |b.events|
    ensures CreditOk(b, contract, b.events[k]) && BooksOk(b.ledger)
  {
    assert Open(BankSeal, 0);
  }

  lemma CreditedUndone(b: Bank, contract: string, k: nat)
    requires BankOk(b, contract) && k < |b.events| && b.events[k].status == Credited
    requires BooksOk(b.ledger + [ReversalPosting(contract, b.events[k])])
    requires forall a :: Net(ReversalPosting(contract, b.events[k]).entries, a)
                         == -Net(Moving(TreasuryAccount(contract), EscrowAccount(b.events[k].wallet),
                                        b.events[k].amount), a)
    ensures BankOk(Bank(Upsert(b.events, k, ReorgedRow(b.events[k])), b.withdrawals,
                        b.ledger + [ReversalPosting(contract, b.events[k])]), contract)
  {
    assert Open(BankSeal, 0);
    ReorgedAdvances(b.events, k);
    RowKeepsUnique(b.events, k, ReorgedRow(b.events[k]));
    ReversedAccounted(b, contract, k);
    ReversedCredits(b, contract, k, ReversalPosting(contract, b.events[k]));
    ReversedBalances(b, contract, k);
  }

  lemma {:induction false} UndoneKeepsBank(db: ChainDb, ws: seq<Withdrawal>, contract: string, from: nat, k: nat)
    requires BankOk(BankOf(db, ws), contract) && k <= |db.events|
    ensures Undone(db, from, k).Ok? && BankOk(BankOf(Undone(db, from, k).value, ws), contract)
  {
    if k > 0 {
      UndoneKeepsBank(db, ws, contract, from, k - 1);
      var before := Undone(db, from, k - 1).value;
      UndoneRows(db, from, k - 1);
      if Affected(db.events[k - 1], from) {
        UndoEventKeepsBank(BankOf(before, ws), contract, k - 1);
      }
    }
  }

  /** A range commit under the newest lease never fails, and keeps every balance equation. */
  lemma RangeKeepsBank(db: ChainDb, ws: seq<Withdrawal>, contract: string, lease: nat, ds: seq<DepositInput>,
                       c: Checkpoint)
    requires BankOk(BankOf(db, ws), contract) && forall k | 0 <= k < |ds| :: InputOk(ds[k], contract)
    ensures CommitRange(db, lease, ds, c).Ok? <==> lease == db.generation
    ensures lease == db.generation ==> BankOk(BankOf(CommitRange(db, lease, ds, c).value, ws), contract)
  {
    CreditAllKeepsBank(db, ws, ds, contract);
  }

  /** So does a rewind: what it reverses can always be reversed. */
  lemma RewindKeepsBank(db: ChainDb, ws: seq<Withdrawal>, contract: string, lease: nat, from: nat,
                        c: Option<Checkpoint>)
    requires BankOk(BankOf(db, ws), contract)
    ensures Rewind(db, lease, from, c).Ok? <==> lease == db.generation
    ensures lease == db.generation ==> BankOk(BankOf(Rewind(db, lease, from, c).value, ws), contract)
  {
    UndoneKeepsBank(db, ws, contract, from, |db.events|);
  }

  // ---- Withdrawals ----

  function HoldPosting(w: Withdrawal): Transaction { Transaction(WithdrawalReserve(w.id), Normalize(Held(w))) }

  function OutcomePosting(w: Withdrawal, outcome: Outcome): Transaction {
    Transaction(OutcomeRef(w.id, outcome), Normalize(Resolve(w, outcome)))
  }

  /** The withdrawals move on: none is lost, and none leaves an outcome it has reached. */
  predicate WithdrawalsAdvance(ws: seq<Withdrawal>, after: seq<Withdrawal>) {
    && |ws| <= |after|
    && forall i | 0 <= i < |ws| :: after[i].id == ws[i].id && (ws[i].status != Reserved ==> after[i] == ws[i])
  }

  lemma WithdrawalsKeepAccounted(b: Bank, after: seq<Withdrawal>, reference: Reference)
    requires Accounted(b, reference) && WithdrawalsAdvance(b.withdrawals, after)
    ensures Accounted(b.(withdrawals := after), reference)
  {
    match reference {
      case WithdrawalReserve(id) =>
        var k :| 0 <= k < |b.withdrawals| && b.withdrawals[k].id == id;
        assert after[k].id == id;
      case WithdrawalCompleted(id) =>
        var k :| 0 <= k < |b.withdrawals| && b.withdrawals[k].id == id && b.withdrawals[k].status == Completed;
        assert after[k] == b.withdrawals[k];
      case WithdrawalReleased(id) =>
        var k :| 0 <= k < |b.withdrawals| && b.withdrawals[k].id == id && b.withdrawals[k].status == Released;
        assert after[k] == b.withdrawals[k];
      case DepositCredit(id, r) =>
        var k :| 0 <= k < |b.events| && b.events[k].id == id && CreditUsed(b.events[k], r);
        assert b.(withdrawals := after).events[k].id == id;
      case DepositReversal(id, r) =>
        var k :| 0 <= k < |b.events| && b.events[k].id == id && r < b.events[k].revision;
        assert b.(withdrawals := after).events[k].id == id;
    }
  }

  lemma WithdrawalAccounted(b: Bank, after: seq<Withdrawal>, t: Transaction)
    requires AllAccounted(b) && WithdrawalsAdvance(b.withdrawals, after)
    requires Accounted(b.(withdrawals := after), t.reference)
    requires forall e :: Accounted(b.(withdrawals := after), e)
                         ==> Accounted(Bank(b.events, after, b.ledger + [t]), e)
    ensures AllAccounted(Bank(b.events, after, b.ledger + [t]))
  {
    var next := Bank(b.events, after, b.ledger + [t]);
    forall k | 0 <= k < |next.ledger| ensures Accounted(next, next.ledger[k].reference) {
      if k < |b.ledger| {
        WithdrawalsKeepAccounted(b, after, b.ledger[k].reference);
      }
    }
  }

  lemma AccountedAnyLedger(b: Bank, ledger: seq<Transaction>, reference: Reference)
    ensures Accounted(b, reference) <==> Accounted(b.(ledger := ledger), reference)
  {
    var c := b.(ledger := ledger);
    assert c.events == b.events && c.withdrawals == b.withdrawals;
  }

  lemma LedgerKeepsCredits(b: Bank, contract: string, after: seq<Withdrawal>, t: Transaction)
    requires CreditsOk(b, contract)
    ensures CreditsOk(Bank(b.events, after, b.ledger + [t]), contract)
  {
    forall k | 0 <= k < |b.events| ensures CreditOk(Bank(b.events, after, b.ledger + [t]), contract, b.events[k]) {
      assert CreditOk(b, contract, b.events[k]);
      CreditsStay(b, contract, t, b.events[k]);
    }
  }

  /** A posting together with the withdrawal rows that account for it. */
  lemma WithdrawalKeeps(b: Bank, contract: string, after: seq<Withdrawal>, t: Transaction)
    requires BankOk(b, contract) && WithdrawalsAdvance(b.withdrawals, after) && UniqueWithdrawals(after)
    requires BooksOk(b.ledger + [t]) && Accounted(b.(withdrawals := after), t.reference)
    requires forall a: AccountId :: Sum(after, WithdrawalShare(a))
                                    == Sum(b.withdrawals, WithdrawalShare(a)) + Net(t.entries, a)
    ensures BankOk(Bank(b.events, after, b.ledger + [t]), contract)
  {
    assert Open(BankSeal, 0);
    var next := Bank(b.events, after, b.ledger + [t]);
    forall e ensures Accounted(b.(withdrawals := after), e) ==> Accounted(next, e) {
      AccountedAnyLedger(b.(withdrawals := after), b.ledger + [t], e);
    }
    WithdrawalAccounted(b, after, t);
    LedgerKeepsCredits(b, contract, after, t);
    forall a: AccountId ensures Balance(next.ledger, a) == Expected(next, contract, a) {
      BalanceAppends(b.ledger, t, a);
    }
  }

  lemma HoldIsFresh(b: Bank, contract: string, id: WithdrawalId)
    requires BankOk(b, contract) && WithdrawalIndex(b.withdrawals, id) == |b.withdrawals|
    ensures TransactionIndex(b.ledger, WithdrawalReserve(id)) == |b.ledger| && BooksOk(b.ledger)
  {
    assert Open(BankSeal, 0);
    Unused(b, WithdrawalReserve(id));
  }

  lemma OutcomeIsFresh(b: Bank, contract: string, i: nat, outcome: Outcome)
    requires BankOk(b, contract) && i < |b.withdrawals| && b.withdrawals[i].status == Reserved
    ensures TransactionIndex(b.ledger, OutcomeRef(b.withdrawals[i].id, outcome)) == |b.ledger| && BooksOk(b.ledger)
    ensures UniqueWithdrawals(b.withdrawals)
  {
    assert Open(BankSeal, 0);
    forall j | 0 <= j < |b.withdrawals| && b.withdrawals[j].id == b.withdrawals[i].id ensures j == i {
    }
    Unused(b, OutcomeRef(b.withdrawals[i].id, outcome));
  }

  function VaultOf(b: Bank, nonces: map<(string, Wallet), nat>): Vault { Vault(b.withdrawals, nonces, b.ledger) }

  lemma NetNothing(a: AccountId)
    ensures Net([], a) == 0
  {
  }

  lemma NewHoldKeeps(b: Bank, contract: string, w: Withdrawal)
    requires BankOk(b, contract) && w.status == Reserved && w.amount > 0
    requires WithdrawalIndex(b.withdrawals, w.id) == |b.withdrawals| && BooksOk(b.ledger + [HoldPosting(w)])
    ensures BankOk(Bank(b.events, b.withdrawals + [w], b.ledger + [HoldPosting(w)]), contract)
  {
    var after := b.withdrawals + [w];
    assert UniqueWithdrawals(b.withdrawals) by {
      assert Open(BankSeal, 0);
    }
    assert after[|b.withdrawals|].id == w.id;
    forall a: AccountId
      ensures Sum(after, WithdrawalShare(a)) == Sum(b.withdrawals, WithdrawalShare(a)) + Net(HoldPosting(w).entries, a)
    {
      SumAppend(b.withdrawals, w, WithdrawalShare(a));
      NormalizeKeepsNet(Held(w), a);
      NetNothing(a);
    }
    WithdrawalKeeps(b, contract, after, HoldPosting(w));
  }

  /** A request that starts a withdrawal of its own. */
  predicate StartsNew(v: Vault, q: ReserveInput) {
    && q.amount > 0
    && WithdrawalIndex(v.withdrawals, q.id) == |v.withdrawals|
    && (q.key.Some? ==> KeyIndex(v.withdrawals, q.user, q.key.value) == |v.withdrawals|)
  }

  /** A new reservation fails for funds exactly when escrow holds less than the amount, a replay never does, a failure
      changes nothing, and every balance equation holds after either. */
  lemma ReserveKeepsBank(b: Bank, nonces: map<(string, Wallet), nat>, contract: string, q: ReserveInput)
    requires BankOk(b, contract)
    ensures var (v, r) := Reserve(VaultOf(b, nonces), q);
            && BankOk(Bank(b.events, v.withdrawals, v.ledger), contract)
            && (r.Err? ==> v == VaultOf(b, nonces))
            && (StartsNew(VaultOf(b, nonces), q) ==>
                  (r == Err(PostingRefused(InsufficientFunds))
                   <==> Balance(b.ledger, EscrowAccount(q.wallet)) < q.amount)
                  && (r.Ok? <==> Balance(b.ledger, EscrowAccount(q.wallet)) >= q.amount))
            && (!StartsNew(VaultOf(b, nonces), q) ==> !(r.Err? && r.error.PostingRefused?) && v == VaultOf(b, nonces))
  {
    var v := VaultOf(b, nonces);
    if q.amount > 0 && WithdrawalIndex(b.withdrawals, q.id) == |b.withdrawals| {
      HoldIsFresh(b, contract, q.id);
      AccountsDiffer(q.wallet, q.wallet);
      FreshPost(b.ledger, WithdrawalReserve(q.id), EscrowAccount(q.wallet), ReservedAccount(q.wallet), q.amount,
                Some(EscrowAccount(q.wallet)));
      if Post(b.ledger, WithdrawalReserve(q.id), Hold(q), Some(EscrowAccount(q.wallet))).1.Ok? {
        NewHoldKeeps(b, contract, Drafted(v, q));
      }
    }
  }

  // ---- The three equations ----

  function CreditedTo(wallet: Wallet): DepositEvent -> int {
    (e: DepositEvent) => if e.status == Credited && e.wallet == wallet then e.amount else 0
  }

  function CreditedAmount(e: DepositEvent): int { if e.status == Credited then e.amount else 0 }

  function ReservedBy(wallet: Wallet): Withdrawal -> int {
    (w: Withdrawal) => if w.status == Reserved && w.wallet == wallet then w.amount else 0
  }

  /** Withdrawals of the wallet that are reserved or completed. */
  function TakenFrom(wallet: Wallet): Withdrawal -> int {
    (w: Withdrawal) => if w.status != Released && w.wallet == wallet then w.amount else 0
  }

  function CompletedFrom(contract: string): Withdrawal -> int {
    (w: Withdrawal) => if w.status == Completed && w.contract == contract then w.amount else 0
  }

  lemma EscrowShares(e: DepositEvent, w: Withdrawal, contract: string, wallet: Wallet)
    ensures EventShare(contract, EscrowAccount(wallet))(e) == CreditedTo(wallet)(e)
    ensures WithdrawalShare(EscrowAccount(wallet))(w) == -TakenFrom(wallet)(w)
  {
    var a := EscrowAccount(wallet);
    AccountsDiffer(wallet, e.wallet);
    AccountsDiffer(wallet, w.wallet);
    AccountsDiffer(wallet, contract);
    AccountsDiffer(wallet, w.contract);
    MovingNet(TreasuryAccount(contract), EscrowAccount(e.wallet), e.amount, a);
    MovingNet(EscrowAccount(w.wallet), ReservedAccount(w.wallet), w.amount, a);
    MovingNet(ReservedAccount(w.wallet), TreasuryAccount(w.contract), w.amount, a);
    MovingNet(ReservedAccount(w.wallet), EscrowAccount(w.wallet), w.amount, a);
    NetNothing(a);
  }

  lemma ReservedShares(e: DepositEvent, w: Withdrawal, contract: string, wallet: Wallet)
    ensures EventShare(contract, ReservedAccount(wallet))(e) == 0
    ensures WithdrawalShare(ReservedAccount(wallet))(w) == ReservedBy(wallet)(w)
  {
    var a := ReservedAccount(wallet);
    AccountsDiffer(e.wallet, wallet);
    AccountsDiffer(w.wallet, wallet);
    AccountsDiffer(wallet, w.wallet);
    AccountsDiffer(wallet, contract);
    AccountsDiffer(wallet, w.contract);
    MovingNet(TreasuryAccount(contract), EscrowAccount(e.wallet), e.amount, a);
    MovingNet(EscrowAccount(w.wallet), ReservedAccount(w.wallet), w.amount, a);
    MovingNet(ReservedAccount(w.wallet), TreasuryAccount(w.contract), w.amount, a);
    MovingNet(ReservedAccount(w.wallet), EscrowAccount(w.wallet), w.amount, a);
    NetNothing(a);
  }

  lemma TreasuryShares(e: DepositEvent, w: Withdrawal, contract: string, k: string)
    ensures EventShare(contract, TreasuryAccount(k))(e) == if k == contract then -CreditedAmount(e) else 0
    ensures WithdrawalShare(TreasuryAccount(k))(w) == CompletedFrom(k)(w)
  {
    var a := TreasuryAccount(k);
    AccountsDiffer(e.wallet, k);
    AccountsDiffer(w.wallet, k);
    AccountsDiffer(k, contract);
    AccountsDiffer(k, w.contract);
    MovingNet(TreasuryAccount(contract), EscrowAccount(e.wallet), e.amount, a);
    MovingNet(EscrowAccount(w.wallet), ReservedAccount(w.wallet), w.amount, a);
    MovingNet(ReservedAccount(w.wallet), TreasuryAccount(w.contract), w.amount, a);
    MovingNet(ReservedAccount(w.wallet), EscrowAccount(w.wallet), w.amount, a);
    NetNothing(a);
  }

  const NO_EVENT := DepositEvent("", 0, [], "", 0, Reorged, 0, None, None)

  const NO_WITHDRAWAL := Withdrawal("", "", "", "", 0, 0, Released, None)

  lemma BankBalance(b: Bank, contract: string, a: AccountId)
    requires BankOk(b, contract)
    ensures Balance(b.ledger, a) == Expected(b, contract, a)
  {
    assert Open(BankSeal, 0);
  }

  /** A wallet's escrow is what it was credited less what it has reserved or withdrawn. */
  lemma EscrowEquation(b: Bank, contract: string, wallet: Wallet)
    requires BankOk(b, contract)
    ensures Balance(b.ledger, EscrowAccount(wallet))
            == Sum(b.events, CreditedTo(wallet)) - Sum(b.withdrawals, TakenFrom(wallet))
  {
    var a := EscrowAccount(wallet);
    BankBalance(b, contract, a);
    forall i | 0 <= i < |b.events| ensures EventShare(contract, a)(b.events[i]) == CreditedTo(wallet)(b.events[i]) {
      EscrowShares(b.events[i], NO_WITHDRAWAL, contract, wallet);
    }
    forall i | 0 <= i < |b.withdrawals|
      ensures WithdrawalShare(a)(b.withdrawals[i]) == -TakenFrom(wallet)(b.withdrawals[i])
    {
      EscrowShares(NO_EVENT, b.withdrawals[i], contract, wallet);
    }
    SumMatches(b.events, EventShare(contract, a), b.events, CreditedTo(wallet));
    SumOpposite(b.withdrawals, WithdrawalShare(a), b.withdrawals, TakenFrom(wallet));
  }

  /** A wallet's reserved account holds exactly its reserved withdrawals. */
  lemma ReservedEquation(b: Bank, contract: string, wallet: Wallet)
    requires BankOk(b, contract)
    ensures Balance(b.ledger, ReservedAccount(wallet)) == Sum(b.withdrawals, ReservedBy(wallet))
  {
    var a := ReservedAccount(wallet);
    BankBalance(b, contract, a);
    forall i | 0 <= i < |b.events| ensures EventShare(contract, a)(b.events[i]) == 0 {
      ReservedShares(b.events[i], NO_WITHDRAWAL, contract, wallet);
    }
    forall i | 0 <= i < |b.withdrawals|
      ensures WithdrawalShare(a)(b.withdrawals[i]) == ReservedBy(wallet)(b.withdrawals[i])
    {
      ReservedShares(NO_EVENT, b.withdrawals[i], contract, wallet);
    }
    SumZero(b.events, EventShare(contract, a));
    SumMatches(b.withdrawals, WithdrawalShare(a), b.withdrawals, ReservedBy(wallet));
  }

  /** A contract's treasury is what was withdrawn through it less, for the indexed contract, what was credited. */
  lemma TreasuryEquation(b: Bank, contract: string, k: string)
    requires BankOk(b, contract)
    ensures Balance(b.ledger, TreasuryAccount(k))
            == Sum(b.withdrawals, CompletedFrom(k)) - (if k == contract then Sum(b.events, CreditedAmount) else 0)
  {
    var a := TreasuryAccount(k);
    BankBalance(b, contract, a);
    forall i | 0 <= i < |b.events|
      ensures EventShare(contract, a)(b.events[i]) == if k == contract then -CreditedAmount(b.events[i]) else 0
    {
      TreasuryShares(b.events[i], NO_WITHDRAWAL, contract, k);
    }
    forall i | 0 <= i < |b.withdrawals|
      ensures WithdrawalShare(a)(b.withdrawals[i]) == CompletedFrom(k)(b.withdrawals[i])
    {
      TreasuryShares(NO_EVENT, b.withdrawals[i], contract, k);
    }
    if k == contract {
      SumOpposite(b.events, EventShare(contract, a), b.events, CreditedAmount);
    } else {
      SumZero(b.events, EventShare(contract, a));
    }
    SumMatches(b.withdrawals, WithdrawalShare(a), b.withdrawals, CompletedFrom(k));
  }

  // ---- Settling a withdrawal ----

  /** The reserved account covers each reserved withdrawal of its wallet. */
  lemma ReservedCovers(b: Bank, contract: string, i: nat)
    requires BankOk(b, contract) && i < |b.withdrawals| && b.withdrawals[i].status == Reserved
    ensures Balance(b.ledger, ReservedAccount(b.withdrawals[i].wallet)) >= b.withdrawals[i].amount > 0
  {
    var wallet := b.withdrawals[i].wallet;
    OutcomeIsFresh(b, contract, i, Complete);
    ReservedEquation(b, contract, wallet);
    SumAtLeast(b.withdrawals, ReservedBy(wallet), i);
  }

  lemma OutcomeShares(w: Withdrawal, outcome: Outcome, a: AccountId)
    requires w.status == Reserved
    ensures WithdrawalShare(a)(w.(status := OutcomeStatus(outcome)))
            == WithdrawalShare(a)(w) + Net(OutcomePosting(w, outcome).entries, a)
  {
    NormalizeKeepsNet(Resolve(w, outcome), a);
    NetNothing(a);
    var after := w.(status := OutcomeStatus(outcome));
    assert Held(after) == Held(w);
    assert Outcomes(after) == Resolve(w, outcome);
  }

  lemma ResolvedKeeps(b: Bank, contract: string, i: nat, outcome: Outcome)
    requires BankOk(b, contract) && i < |b.withdrawals| && b.withdrawals[i].status == Reserved
    requires UniqueWithdrawals(b.withdrawals) && BooksOk(b.ledger + [OutcomePosting(b.withdrawals[i], outcome)])
    ensures var w := b.withdrawals[i];
            BankOk(Bank(b.events, b.withdrawals[i := w.(status := OutcomeStatus(outcome))],
                        b.ledger + [OutcomePosting(w, outcome)]), contract)
  {
    var w := b.withdrawals[i];
    var after := b.withdrawals[i := w.(status := OutcomeStatus(outcome))];
    var t := OutcomePosting(w, outcome);
    assert after[i].id == w.id && after[i].status == OutcomeStatus(outcome);
    assert Accounted(b.(withdrawals := after), t.reference);
    forall a: AccountId
      ensures Sum(after, WithdrawalShare(a)) == Sum(b.withdrawals, WithdrawalShare(a)) + Net(t.entries, a)
    {
      SumDiffers(b.withdrawals, WithdrawalShare(a), after, WithdrawalShare(a), i);
      OutcomeShares(w, outcome, a);
    }
    WithdrawalKeeps(b, contract, after, t);
  }

  /** Settling or releasing a reserved withdrawal never fails, and keeps every balance equation. */
  lemma TransitionKeepsBank(b: Bank, nonces: map<(string, Wallet), nat>, contract: string, id: WithdrawalId,
                            outcome: Outcome)
    requires BankOk(b, contract)
    ensures var (v, r) := Transition(VaultOf(b, nonces), id, outcome);
            && r.Ok? && BankOk(Bank(b.events, v.withdrawals, v.ledger), contract)
            && var i := WithdrawalIndex(b.withdrawals, id);
               (i < |b.withdrawals| && b.withdrawals[i].status == Reserved ==>
                  v.withdrawals == b.withdrawals[i := b.withdrawals[i].(status := OutcomeStatus(outcome))])
  {
    var i := WithdrawalIndex(b.withdrawals, id);
    if i < |b.withdrawals| && b.withdrawals[i].status == Reserved {
      var w := b.withdrawals[i];
      OutcomeIsFresh(b, contract, i, outcome);
      ReservedCovers(b, contract, i);
      AccountsDiffer(w.wallet, w.wallet);
      AccountsDiffer(w.wallet, w.contract);
      FreshPost(b.ledger, OutcomeRef(id, outcome), ReservedAccount(w.wallet),
                if outcome.Complete? then TreasuryAccount(w.contract) else EscrowAccount(w.wallet), w.amount,
                Some(ReservedAccount(w.wallet)));
      ResolvedKeeps(b, contract, i, outcome);
    }
  }

  // ---- Whole runs ----

  /** The indexer's tables with the withdrawals beside them, over one ledger. */
  datatype Web3 = Web3(db: ChainDb, withdrawals: seq<Withdrawal>, nonces: map<(string, Wallet), nat>)

  datatype Web3Step =
    | TakeLease
    | IndexRange(lease: nat, deposits: seq<DepositInput>, checkpoint: Checkpoint)
    | IndexRewind(lease: nat, from: nat, before: Option<Checkpoint>)
    | AddUser(wallet: Wallet, user: UserId)
    | AskWithdrawal(input: ReserveInput)
    | EndWithdrawal(id: WithdrawalId, outcome: Outcome)

  function Committed(db: ChainDb, r: Result<ChainDb, ChainError>): ChainDb { if r.Ok? then r.value else db }

  function Next(s: Web3, step: Web3Step): Web3 {
    match step
    case TakeLease => s.(db := s.db.(generation := s.db.generation + 1))
    case IndexRange(lease, ds, c) => s.(db := Committed(s.db, CommitRange(s.db, lease, ds, c)))
    case IndexRewind(lease, from, c) => s.(db := Committed(s.db, Rewind(s.db, lease, from, c)))
    case AddUser(wallet, user) => s.(db := s.db.(users := s.db.users[wallet := user]))
    case AskWithdrawal(q) =>
      var (v, _) := Reserve(Vault(s.withdrawals, s.nonces, s.db.ledger), q);
      Web3(s.db.(ledger := v.ledger), v.withdrawals, v.nonces)
    case EndWithdrawal(id, outcome) =>
      var (v, _) := Transition(Vault(s.withdrawals, s.nonces, s.db.ledger), id, outcome);
      Web3(s.db.(ledger := v.ledger), v.withdrawals, v.nonces)
  }

  predicate StepOk(step: Web3Step, contract: string) {
    step.IndexRange? ==> forall k | 0 <= k < |step.deposits| :: InputOk(step.deposits[k], contract)
  }

  function BankIn(s: Web3): Bank { Bank(s.db.events, s.withdrawals, s.db.ledger) }

  /** Every step of the indexer and of withdrawals keeps the balance equations. */
  lemma NextKeepsBank(s: Web3, step: Web3Step, contract: string)
    requires BankOk(BankIn(s), contract) && StepOk(step, contract)
    ensures BankOk(BankIn(Next(s, step)), contract)
  {
    match step {
      case TakeLease =>
      case IndexRange(lease, ds, c) => RangeKeepsBank(s.db, s.withdrawals, contract, lease, ds, c);
      case IndexRewind(lease, from, c) => RewindKeepsBank(s.db, s.withdrawals, contract, lease, from, c);
      case AddUser(_, _) =>
      case AskWithdrawal(q) => ReserveKeepsBank(BankIn(s), s.nonces, contract, q);
      case EndWithdrawal(id, outcome) => TransitionKeepsBank(BankIn(s), s.nonces, contract, id, outcome);
    }
  }

  function Web3After(users: map<Wallet, UserId>, steps: seq<Web3Step>): Web3 {
    if |steps| == 0 then Web3(ChainDb(0, None, map[], [], users, []), [], map[])
    else Next(Web3After(users, steps[..|steps| - 1]), steps[|steps| - 1])
  }

  lemma {:induction false} RunKeepsBank(users: map<Wallet, UserId>, steps: seq<Web3Step>, contract: string)
    requires forall i | 0 <= i < |steps| :: StepOk(steps[i], contract)
    ensures BankOk(BankIn(Web3After(users, steps)), contract)
  {
    if |steps| > 0 {
      assert forall i | 0 <= i < |steps| - 1 :: steps[..|steps| - 1][i] == steps[i];
      RunKeepsBank(users, steps[..|steps| - 1], contract);
      NextKeepsBank(Web3After(users, steps[..|steps| - 1]), steps[|steps| - 1], contract);
    } else {
      EmptyBank(contract);
    }
  }

  lemma EmptyBank(contract: string)
    ensures BankOk(Bank([], [], []), contract)
  {
  }

  /** After any steps: escrow is credits less open and completed withdrawals, the reserved account holds the open
      ones, the treasury mirrors credits and completed ones, and no reference, so no credit or reversal of one
      revision of an event, was posted twice. */
  lemma Web3Equations(users: map<Wallet, UserId>, steps: seq<Web3Step>, contract: string, wallet: Wallet)
    requires forall i | 0 <= i < |steps| :: StepOk(steps[i], contract)
    ensures var s := Web3After(users, steps);
            && Balance(s.db.ledger, EscrowAccount(wallet))
               == Sum(s.db.events, CreditedTo(wallet)) - Sum(s.withdrawals, TakenFrom(wallet))
            && Balance(s.db.ledger, ReservedAccount(wallet)) == Sum(s.withdrawals, ReservedBy(wallet))
            && Balance(s.db.ledger, TreasuryAccount(contract))
               == Sum(s.withdrawals, CompletedFrom(contract)) - Sum(s.db.events, CreditedAmount)
            && forall i, j | 0 <= i < j < |s.db.ledger| :: s.db.ledger[i].reference != s.db.ledger[j].reference
  {
    var b := BankIn(Web3After(users, steps));
    RunKeepsBank(users, steps, contract);
    EscrowEquation(b, contract, wallet);
    ReservedEquation(b, contract, wallet);
    TreasuryEquation(b, contract, contract);
    NoneTwice(b, contract);
  }

  lemma NoneTwice(b: Bank, contract: string)
    requires BankOk(b, contract)
    ensures forall i, j | 0 <= i < j < |b.ledger| :: b.ledger[i].reference != b.ledger[j].reference
  {
    assert Open(BankSeal, 0);
  }
}

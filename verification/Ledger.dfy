/** The double-entry ledger: canonical entry lists, idempotent posting and balances. */
module Ledger {
  import opened Sequences
  import opened Wrappers

  type AccountId = string

  type DepositId = string

  type WithdrawalId = string

  /** What a posting is for; posting the same reference twice is the same posting. */
  datatype Reference =
    | DepositCredit(deposit: DepositId, revision: nat)
    | DepositReversal(deposit: DepositId, revision: nat)
    | WithdrawalReserve(withdrawal: WithdrawalId)
    | WithdrawalCompleted(withdrawal: WithdrawalId)
    | WithdrawalReleased(withdrawal: WithdrawalId)
    | Named(name: string)

  datatype Entry = Entry(account: AccountId, amount: int)

  /** A posted transaction with its canonical entries; the stored payload hash stands for exactly these. */
  datatype Transaction = Transaction(reference: Reference, entries: seq<Entry>)

  datatype LedgerError =
    | UnbalancedTransaction
    | InvalidLedgerEntries
    | IdempotencyConflict
    | InsufficientFunds
    | InvalidTransferAmount

  // ---- Account order ----

  /** The order of account names, character by character. */
  predicate Before(a: AccountId, b: AccountId) {
    if |b| == 0 then false
    else if |a| == 0 then true
    else if a[0] != b[0] then a[0] < b[0]
    else Before(a[1..], b[1..])
  }

  lemma {:induction false} BeforeTotal(a: AccountId, b: AccountId)
    ensures a == b || Before(a, b) || Before(b, a)
    ensures Before(a, b) ==> a != b && !Before(b, a)
  {
    if |a| > 0 && |b| > 0 {
      BeforeTotal(a[1..], b[1..]);
      if a[0] == b[0] && a[1..] == b[1..] {
        assert a == [a[0]] + a[1..];
        assert b == [b[0]] + b[1..];
      }
    }
  }

  lemma {:induction false} BeforeTransitive(a: AccountId, b: AccountId, c: AccountId)
    requires Before(a, b) && Before(b, c)
    ensures Before(a, c)
  {
    if |a| > 0 && a[0] == b[0] == c[0] {
      BeforeTransitive(a[1..], b[1..], c[1..]);
    }
  }

  // ---- Canonical entries ----

  function AmountIf(f: AccountId -> bool): Entry -> int {
    (e: Entry) => if f(e.account) then e.amount else 0
  }

  function Only(a: AccountId): AccountId -> bool { (x: AccountId) => x == a }

  function Anyone(): AccountId -> bool { (x: AccountId) => true }

  /** What the entries do to the accounts satisfying f in total. */
  function NetOf(es: seq<Entry>, f: AccountId -> bool): int { Sum(es, AmountIf(f)) }

  /** What the entries do to one account in total. */
  function Net(es: seq<Entry>, a: AccountId): int { NetOf(es, Only(a)) }

  function Total(es: seq<Entry>): int { NetOf(es, Anyone()) }

  function EntryOn(a: AccountId): Entry -> bool { (e: Entry) => e.account == a }

  function AccountIndex(es: seq<Entry>, a: AccountId): (i: nat)
    ensures i <= |es|
    ensures i < |es| ==> es[i].account == a
    ensures forall k | 0 <= k < i :: es[k].account != a
  {
    FirstWhere(es, EntryOn(a))
  }

  /** Adds to the account's running amount, in insertion order. */
  function AddTo(tally: seq<Entry>, e: Entry): seq<Entry> {
    var i := AccountIndex(tally, e.account);
    if i < |tally| then tally[i := Entry(e.account, tally[i].amount + e.amount)] else tally + [e]
  }

  function Tally(es: seq<Entry>): seq<Entry> {
    if |es| == 0 then [] else AddTo(Tally(es[..|es| - 1]), es[|es| - 1])
  }

  predicate NonZero(e: Entry) { e.amount != 0 }

  function InsertEntry(e: Entry, es: seq<Entry>): (r: seq<Entry>)
    ensures forall x :: x in r <==> x in es || x == e
  {
    if |es| == 0 then [e]
    else
      assert es == es[..|es| - 1] + [es[|es| - 1]];
      if Before(es[|es| - 1].account, e.account) then es + [e]
      else InsertEntry(e, es[..|es| - 1]) + [es[|es| - 1]]
  }

  function SortEntries(es: seq<Entry>): seq<Entry> {
    if |es| == 0 then [] else InsertEntry(es[|es| - 1], SortEntries(es[..|es| - 1]))
  }

  /** One entry per account with a non-zero net, in account order. */
  function Normalize(es: seq<Entry>): seq<Entry> { SortEntries(Filter(Tally(es), NonZero)) }

  method NormalizeEntries(es: seq<Entry>) returns (r: seq<Entry>)
    ensures r == Normalize(es)
  {
    var tally: seq<Entry> := [];
    for k := 0 to |es|
      invariant tally == Tally(es[..k])
    {
      var i := AccountIndex(tally, es[k].account);
      if i < |tally| {
        tally := tally[i := Entry(es[k].account, tally[i].amount + es[k].amount)];
      } else {
        tally := tally + [es[k]];
      }
      assert es[..k + 1][..k] == es[..k];
    }
    assert es[..|es|] == es;
    r := SortEntries(Filter(tally, NonZero));
  }

  predicate DistinctAccounts(es: seq<Entry>) {
    forall i, j | 0 <= i < j < |es| :: es[i].account != es[j].account
  }

  /** Strictly ascending accounts. */
  predicate SortedEntries(es: seq<Entry>) {
    forall i, j | 0 <= i < j < |es| :: Before(es[i].account, es[j].account)
  }

  predicate ZeroFree(es: seq<Entry>) {
    forall i | 0 <= i < |es| :: es[i].amount != 0
  }

  lemma AddToNet(t: seq<Entry>, e: Entry, f: AccountId -> bool)
    ensures NetOf(AddTo(t, e), f) == NetOf(t, f) + AmountIf(f)(e)
  {
    var i := AccountIndex(t, e.account);
    if i < |t| {
      SumDiffers(t, AmountIf(f), AddTo(t, e), AmountIf(f), i);
    } else {
      SumAppend(t, e, AmountIf(f));
    }
  }

  lemma {:induction false} TallyNet(es: seq<Entry>, f: AccountId -> bool)
    ensures NetOf(Tally(es), f) == NetOf(es, f)
  {
    if |es| > 0 {
      TallyNet(es[..|es| - 1], f);
      AddToNet(Tally(es[..|es| - 1]), es[|es| - 1], f);
    }
  }

  lemma AddToDistinct(t: seq<Entry>, e: Entry)
    requires DistinctAccounts(t)
    ensures DistinctAccounts(AddTo(t, e))
  {
  }

  lemma {:induction false} TallyDistinct(es: seq<Entry>)
    ensures DistinctAccounts(Tally(es))
  {
    if |es| > 0 {
      TallyDistinct(es[..|es| - 1]);
      AddToDistinct(Tally(es[..|es| - 1]), es[|es| - 1]);
    }
  }

  lemma {:induction false} FilterNet(es: seq<Entry>, f: AccountId -> bool)
    ensures NetOf(Filter(es, NonZero), f) == NetOf(es, f)
  {
    if |es| > 0 {
      var n := |es| - 1;
      FilterNet(es[..n], f);
      if NonZero(es[n]) {
        SumAppend(Filter(es[..n], NonZero), es[n], AmountIf(f));
      }
    }
  }

  lemma {:induction false} FilterDistinct(es: seq<Entry>)
    requires DistinctAccounts(es)
    ensures DistinctAccounts(Filter(es, NonZero)) && ZeroFree(Filter(es, NonZero))
  {
    if |es| > 0 {
      var n := |es| - 1;
      assert forall i | 0 <= i < n :: es[..n][i] == es[i];
      FilterDistinct(es[..n]);
      var low := Filter(es[..n], NonZero);
      forall i | 0 <= i < |low| ensures low[i].account != es[n].account {
        assert low[i] in es[..n];
      }
    }
  }

  lemma {:induction false} InsertNet(e: Entry, es: seq<Entry>, f: AccountId -> bool)
    ensures NetOf(InsertEntry(e, es), f) == NetOf(es, f) + AmountIf(f)(e)
  {
    SumAppend(es, e, AmountIf(f));
    if |es| > 0 && !Before(es[|es| - 1].account, e.account) {
      var n := |es| - 1;
      InsertNet(e, es[..n], f);
      SumAppend(InsertEntry(e, es[..n]), es[n], AmountIf(f));
    }
  }

  /** a lies strictly above every account of the list. */
  predicate Above(es: seq<Entry>, a: AccountId) {
    forall i | 0 <= i < |es| :: Before(es[i].account, a)
  }

  lemma SortedAppend(es: seq<Entry>, e: Entry)
    requires SortedEntries(es) && ZeroFree(es) && e.amount != 0 && Above(es, e.account)
    ensures SortedEntries(es + [e]) && ZeroFree(es + [e])
  {
  }

  lemma SortedPrefix(es: seq<Entry>)
    requires SortedEntries(es) && ZeroFree(es) && |es| > 0
    ensures SortedEntries(es[..|es| - 1]) && ZeroFree(es[..|es| - 1]) && Above(es[..|es| - 1], es[|es| - 1].account)
  {
  }

  lemma AboveAll(es: seq<Entry>, b: AccountId)
    requires SortedEntries(es) && ZeroFree(es) && |es| > 0 && Before(es[|es| - 1].account, b)
    ensures Above(es, b)
  {
    SortedPrefix(es);
    forall i | 0 <= i < |es| ensures Before(es[i].account, b) {
      if i < |es| - 1 {
        assert Before(es[..|es| - 1][i].account, es[|es| - 1].account);
        BeforeTransitive(es[i].account, es[|es| - 1].account, b);
      }
    }
  }

  lemma {:induction false} InsertSorted(e: Entry, es: seq<Entry>)
    requires SortedEntries(es) && ZeroFree(es) && e.amount != 0
    requires forall i | 0 <= i < |es| :: es[i].account != e.account
    ensures SortedEntries(InsertEntry(e, es)) && ZeroFree(InsertEntry(e, es))
  {
    if |es| > 0 {
      var n := |es| - 1;
      SortedPrefix(es);
      if Before(es[n].account, e.account) {
        AboveAll(es, e.account);
        SortedAppend(es, e);
      } else {
        BeforeTotal(es[n].account, e.account);
        InsertSorted(e, es[..n]);
        var low := InsertEntry(e, es[..n]);
        forall i | 0 <= i < |low| ensures Before(low[i].account, es[n].account) {
          assert low[i] in low;
          if low[i] != e {
            var j :| 0 <= j < n && es[..n][j] == low[i];
          }
        }
        SortedAppend(low, es[n]);
      }
    } else {
      SortedAppend(es, e);
    }
  }

  lemma {:induction false} SortFacts(es: seq<Entry>, f: AccountId -> bool)
    requires DistinctAccounts(es) && ZeroFree(es)
    ensures NetOf(SortEntries(es), f) == NetOf(es, f)
    ensures SortedEntries(SortEntries(es)) && ZeroFree(SortEntries(es))
    ensures forall x :: x in SortEntries(es) <==> x in es
  {
    if |es| > 0 {
      var n := |es| - 1;
      assert es == es[..n] + [es[n]];
      assert forall i | 0 <= i < n :: es[..n][i] == es[i];
      SortFacts(es[..n], f);
      var low := SortEntries(es[..n]);
      forall i | 0 <= i < |low| ensures low[i].account != es[n].account {
        assert low[i] in es[..n];
      }
      InsertNet(es[n], low, f);
      InsertSorted(es[n], low);
    }
  }

  /** Normalising keeps every account's net and leaves a sorted, zero-free list. */
  lemma NormalizeKeepsNets(es: seq<Entry>, f: AccountId -> bool)
    ensures NetOf(Normalize(es), f) == NetOf(es, f)
    ensures SortedEntries(Normalize(es)) && ZeroFree(Normalize(es))
  {
    TallyNet(es, f);
    TallyDistinct(es);
    FilterNet(Tally(es), f);
    FilterDistinct(Tally(es));
    SortFacts(Filter(Tally(es), NonZero), f);
  }

  lemma {:induction false} NetAbsent(es: seq<Entry>, a: AccountId)
    requires forall i | 0 <= i < |es| :: es[i].account != a
    ensures Net(es, a) == 0
  {
    if |es| > 0 {
      assert forall i | 0 <= i < |es| - 1 :: es[..|es| - 1][i] == es[i];
      NetAbsent(es[..|es| - 1], a);
    }
  }

  lemma {:induction false} NetPresent(es: seq<Entry>, i: nat)
    requires SortedEntries(es) && i < |es|
    ensures Net(es, es[i].account) == es[i].amount
  {
    var n := |es| - 1;
    assert forall k | 0 <= k < n :: es[..n][k] == es[k];
    forall j, k | 0 <= j < k < |es| ensures es[j].account != es[k].account {
      BeforeTotal(es[j].account, es[k].account);
    }
    if i == n {
      NetAbsent(es[..n], es[n].account);
    } else {
      NetPresent(es[..n], i);
    }
  }

  lemma NetOfPrefix(es: seq<Entry>, a: AccountId)
    requires |es| > 0
    ensures Net(es, a) == Net(es[..|es| - 1], a) + AmountIf(Only(a))(es[|es| - 1])
  {
  }

  /** The greatest account of a sorted, zero-free list is the greatest account with a non-zero net. */
  lemma LastIsGreatest(s: seq<Entry>, t: seq<Entry>)
    requires SortedEntries(s) && ZeroFree(s) && SortedEntries(t) && ZeroFree(t) && |s| > 0
    requires forall a :: Net(s, a) == Net(t, a)
    ensures |t| > 0 && !Before(t[|t| - 1].account, s[|s| - 1].account)
  {
    var x := s[|s| - 1];
    NetPresent(s, |s| - 1);
    if forall i | 0 <= i < |t| :: t[i].account != x.account {
      NetAbsent(t, x.account);
      assert false;
    }
    var i :| 0 <= i < |t| && t[i].account == x.account;
    BeforeTotal(t[i].account, t[|t| - 1].account);
  }

  /** Sorted, zero-free lists with the same nets are the same list. */
  lemma {:induction false} CanonicalUnique(s: seq<Entry>, t: seq<Entry>)
    requires SortedEntries(s) && ZeroFree(s) && SortedEntries(t) && ZeroFree(t)
    requires forall a :: Net(s, a) == Net(t, a)
    ensures s == t
  {
    if |s| == 0 {
      if |t| > 0 {
        LastIsGreatest(t, s);
      }
    } else {
      LastIsGreatest(s, t);
      LastIsGreatest(t, s);
      var m, n := |s| - 1, |t| - 1;
      BeforeTotal(s[m].account, t[n].account);
      NetPresent(s, m);
      NetPresent(t, n);
      assert s[m] == t[n];
      forall a ensures Net(s[..m], a) == Net(t[..n], a) {
        NetOfPrefix(s, a);
        NetOfPrefix(t, a);
      }
      CanonicalUnique(s[..m], t[..n]);
      assert s == s[..m] + [s[m]] && t == t[..n] + [t[n]];
    }
  }

  lemma NormalizeKeepsNet(es: seq<Entry>, a: AccountId)
    ensures Net(Normalize(es), a) == Net(es, a)
  {
    NormalizeKeepsNets(es, Only(a));
  }

  /** Two entry lists have the same canonical form exactly when they do the same to every account. */
  lemma SameFormIffSameNets(s: seq<Entry>, t: seq<Entry>)
    ensures Normalize(s) == Normalize(t) <==> forall a :: Net(s, a) == Net(t, a)
  {
    forall a ensures Net(Normalize(s), a) == Net(s, a) && Net(Normalize(t), a) == Net(t, a) {
      NormalizeKeepsNet(s, a);
      NormalizeKeepsNet(t, a);
    }
    NormalizeKeepsNets(s, Anyone());
    NormalizeKeepsNets(t, Anyone());
    if forall a :: Net(s, a) == Net(t, a) {
      CanonicalUnique(Normalize(s), Normalize(t));
    }
  }

  lemma NormalizeIdempotent(es: seq<Entry>)
    ensures Normalize(Normalize(es)) == Normalize(es)
  {
    forall a ensures Net(Normalize(es), a) == Net(es, a) {
      NormalizeKeepsNet(es, a);
    }
    SameFormIffSameNets(Normalize(es), es);
  }

  // ---- Posting ----

  function Prepare(es: seq<Entry>): Result<seq<Entry>, LedgerError> {
    var entries := Normalize(es);
    if Total(entries) != 0 then Err(UnbalancedTransaction)
    else if |entries| < 2 then Err(InvalidLedgerEntries)
    else Ok(entries)
  }

  /** Entries are accepted exactly when they balance and do something to some account. */
  lemma PrepareMeaning(es: seq<Entry>)
    ensures Prepare(es).Ok? <==> Total(es) == 0 && exists a :: Net(es, a) != 0
    ensures Prepare(es) == Err(UnbalancedTransaction) <==> Total(es) != 0
  {
    var n := Normalize(es);
    NormalizeKeepsNets(es, Anyone());
    forall a ensures Net(n, a) == Net(es, a) {
      NormalizeKeepsNet(es, a);
    }
    if |n| > 0 {
      NetPresent(n, 0);
      assert Net(es, n[0].account) != 0;
      if |n| == 1 {
        assert Total(n) == Total(n[..0]) + n[0].amount;
      }
    }
  }

  function PostedUnder(reference: Reference): Transaction -> bool { (t: Transaction) => t.reference == reference }

  function TransactionIndex(ledger: seq<Transaction>, reference: Reference): (i: nat)
    ensures i <= |ledger|
    ensures i < |ledger| ==> ledger[i].reference == reference
    ensures forall k | 0 <= k < i :: ledger[k].reference != reference
  {
    FirstWhere(ledger, PostedUnder(reference))
  }

  function NetIn(a: AccountId): Transaction -> int { (t: Transaction) => Net(t.entries, a) }

  function Balance(ledger: seq<Transaction>, a: AccountId): int { Sum(ledger, NetIn(a)) }

  /** The source must be debited, and must hold what it is debited. */
  predicate SourceCovers(ledger: seq<Transaction>, entries: seq<Entry>, source: AccountId) {
    var i := AccountIndex(entries, source);
    i < |entries| && entries[i].amount < 0 && Balance(ledger, source) >= -entries[i].amount
  }

  function PostPrepared(ledger: seq<Transaction>, reference: Reference, entries: seq<Entry>, source: Option<AccountId>)
    : (seq<Transaction>, Result<Transaction, LedgerError>)
  {
    var i := TransactionIndex(ledger, reference);
    if i < |ledger| then
      (ledger, if ledger[i].entries == entries then Ok(ledger[i]) else Err(IdempotencyConflict))
    else if source.Some? && !SourceCovers(ledger, entries, source.value) then (ledger, Err(InsufficientFunds))
    else (ledger + [Transaction(reference, entries)], Ok(Transaction(reference, entries)))
  }

  function Post(ledger: seq<Transaction>, reference: Reference, es: seq<Entry>, source: Option<AccountId>)
    : (seq<Transaction>, Result<Transaction, LedgerError>)
  {
    match Prepare(es)
    case Err(e) => (ledger, Err(e))
    case Ok(entries) => PostPrepared(ledger, reference, entries, source)
  }

  function Moving(from: AccountId, to: AccountId, amount: int): seq<Entry> {
    [Entry(from, -amount), Entry(to, amount)]
  }

  function Transfer(ledger: seq<Transaction>, reference: Reference, from: AccountId, to: AccountId, amount: int)
    : (seq<Transaction>, Result<Transaction, LedgerError>)
  {
    if amount <= 0 then (ledger, Err(InvalidTransferAmount))
    else Post(ledger, reference, Moving(from, to, amount), Some(from))
  }

  /** The ledger's tables: transactions are only ever added. */
  class LedgerBook {
    var transactions: seq<Transaction>

    constructor ()
      ensures transactions == []
    {
      transactions := [];
    }

    method PostTransaction(reference: Reference, es: seq<Entry>, source: Option<AccountId>)
      returns (r: Result<Transaction, LedgerError>)
      modifies this
      ensures (transactions, r) == Post(old(transactions), reference, es, source)
    {
      var entries := NormalizeEntries(es);
      if Total(entries) != 0 {
        return Err(UnbalancedTransaction);
      }
      if |entries| < 2 {
        return Err(InvalidLedgerEntries);
      }
      var i := TransactionIndex(transactions, reference);
      if i < |transactions| {
        if transactions[i].entries != entries {
          return Err(IdempotencyConflict);
        }
        return Ok(transactions[i]);
      }
      if source.Some? {
        var k := AccountIndex(entries, source.value);
        if k == |entries| || entries[k].amount >= 0
           || Balance(transactions, source.value) < -entries[k].amount {
          return Err(InsufficientFunds);
        }
      }
      transactions := transactions + [Transaction(reference, entries)];
      return Ok(Transaction(reference, entries));
    }

    method ReserveBuyIn(reference: Reference, player: AccountId, table: AccountId, amount: int)
      returns (r: Result<Transaction, LedgerError>)
      modifies this
      ensures (transactions, r) == Transfer(old(transactions), reference, player, table, amount)
    {
      if amount <= 0 {
        return Err(InvalidTransferAmount);
      }
      r := PostTransaction(reference, Moving(player, table, amount), Some(player));
    }

    method SettleCashOut(reference: Reference, player: AccountId, table: AccountId, amount: int)
      returns (r: Result<Transaction, LedgerError>)
      modifies this
      ensures (transactions, r) == Transfer(old(transactions), reference, table, player, amount)
    {
      if amount <= 0 {
        return Err(InvalidTransferAmount);
      }
      r := PostTransaction(reference, Moving(table, player, amount), Some(table));
    }
  }

  // ---- What the books keep ----

  predicate TransactionOk(t: Transaction) {
    SortedEntries(t.entries) && ZeroFree(t.entries) && Total(t.entries) == 0 && |t.entries| >= 2
  }

  /** Every transaction balances in canonical form, and no reference was posted twice. */
  predicate BooksOk(ledger: seq<Transaction>) {
    && (forall i | 0 <= i < |ledger| :: TransactionOk(ledger[i]))
    && (forall i, j | 0 <= i < j < |ledger| :: ledger[i].reference != ledger[j].reference)
  }

  lemma PostKeepsBooks(ledger: seq<Transaction>, reference: Reference, es: seq<Entry>, source: Option<AccountId>)
    requires BooksOk(ledger)
    ensures BooksOk(Post(ledger, reference, es, source).0)
  {
    NormalizeKeepsNets(es, Anyone());
  }

  lemma CanonicalIsNormal(es: seq<Entry>)
    requires SortedEntries(es) && ZeroFree(es)
    ensures Normalize(es) == es
  {
    forall a ensures Net(Normalize(es), a) == Net(es, a) {
      NormalizeKeepsNet(es, a);
    }
    NormalizeKeepsNets(es, Anyone());
    CanonicalUnique(Normalize(es), es);
  }

  /** Posting a reference again changes nothing, and answers with the stored transaction exactly when the new entries
      do the same to every account. */
  lemma RepostChangesNothing(ledger: seq<Transaction>, reference: Reference, es: seq<Entry>, source: Option<AccountId>)
    requires BooksOk(ledger) && TransactionIndex(ledger, reference) < |ledger| && Prepare(es).Ok?
    ensures var stored := ledger[TransactionIndex(ledger, reference)];
            && Post(ledger, reference, es, source).0 == ledger
            && Post(ledger, reference, es, source).1
               == (if forall a :: Net(es, a) == Net(stored.entries, a) then Ok(stored) else Err(IdempotencyConflict))
  {
    var stored := ledger[TransactionIndex(ledger, reference)];
    CanonicalIsNormal(stored.entries);
    SameFormIffSameNets(es, stored.entries);
  }

  /** A new posting changes each balance by the net of its entries, and nothing else. */
  lemma PostMovesBalances(ledger: seq<Transaction>, reference: Reference, es: seq<Entry>, source: Option<AccountId>,
                          a: AccountId)
    requires Post(ledger, reference, es, source).1.Ok? && TransactionIndex(ledger, reference) == |ledger|
    ensures Balance(Post(ledger, reference, es, source).0, a) == Balance(ledger, a) + Net(es, a)
    ensures Post(ledger, reference, es, source).0 == ledger + [Transaction(reference, Normalize(es))]
  {
    NormalizeKeepsNet(es, a);
    SumAppend(ledger, Transaction(reference, Normalize(es)), NetIn(a));
  }

  // ---- Balances sum to zero ----

  predicate Lists(accounts: seq<AccountId>, es: seq<Entry>) {
    Distinct(accounts) && forall i | 0 <= i < |es| :: es[i].account in accounts
  }

  function NetsOf(es: seq<Entry>): AccountId -> int { (a: AccountId) => Net(es, a) }

  function ShareOf(e: Entry): AccountId -> int { (a: AccountId) => if e.account == a then e.amount else 0 }

  lemma {:induction false} ShareOnce(accounts: seq<AccountId>, e: Entry)
    requires Distinct(accounts)
    ensures Sum(accounts, ShareOf(e)) == if e.account in accounts then e.amount else 0
  {
    if |accounts| > 0 {
      var n := |accounts| - 1;
      assert forall i | 0 <= i < n :: accounts[..n][i] == accounts[i];
      assert accounts == accounts[..n] + [accounts[n]];
      ShareOnce(accounts[..n], e);
    }
  }

  /** The nets of all accounts of a list add up to its total. */
  lemma {:induction false} NetsAddUp(accounts: seq<AccountId>, es: seq<Entry>)
    requires Lists(accounts, es)
    ensures Sum(accounts, NetsOf(es)) == Total(es)
  {
    if |es| == 0 {
      SumZero(accounts, NetsOf(es));
    } else {
      var n := |es| - 1;
      assert forall i | 0 <= i < n :: es[..n][i] == es[i];
      NetsAddUp(accounts, es[..n]);
      ShareOnce(accounts, es[n]);
      forall i | 0 <= i < |accounts|
        ensures NetsOf(es)(accounts[i]) == NetsOf(es[..n])(accounts[i]) + ShareOf(es[n])(accounts[i])
      {
        NetOfPrefix(es, accounts[i]);
      }
      SumAdds(accounts, NetsOf(es[..n]), accounts, ShareOf(es[n]), accounts, NetsOf(es));
    }
  }

  function BalancesOf(ledger: seq<Transaction>): AccountId -> int { (a: AccountId) => Balance(ledger, a) }

  /** Over any listing of the accounts in use, the balances sum to zero. */
  lemma {:induction false} BalancesSumToZero(accounts: seq<AccountId>, ledger: seq<Transaction>)
    requires BooksOk(ledger)
    requires forall i | 0 <= i < |ledger| :: Lists(accounts, ledger[i].entries)
    ensures Sum(accounts, BalancesOf(ledger)) == 0
  {
    if |ledger| == 0 {
      SumZero(accounts, BalancesOf(ledger));
    } else {
      var n := |ledger| - 1;
      assert forall i | 0 <= i < n :: ledger[..n][i] == ledger[i];
      BalancesSumToZero(accounts, ledger[..n]);
      NetsAddUp(accounts, ledger[n].entries);
      SumAdds(accounts, BalancesOf(ledger[..n]), accounts, NetsOf(ledger[n].entries), accounts, BalancesOf(ledger));
    }
  }

  // ---- Sourced accounts ----

  /** A request to post. */
  datatype Posting = Posting(reference: Reference, entries: seq<Entry>, source: Option<AccountId>)

  function PostAll(ledger: seq<Transaction>, ps: seq<Posting>): seq<Transaction> {
    if |ps| == 0 then ledger
    else
      var p := ps[|ps| - 1];
      Post(PostAll(ledger, ps[..|ps| - 1]), p.reference, p.entries, p.source).0
  }

  /** Whoever debits the account names it as the source. */
  predicate DebitsSourced(p: Posting, a: AccountId) {
    Net(p.entries, a) < 0 ==> p.source == Some(a)
  }

  lemma SourceNet(entries: seq<Entry>, a: AccountId)
    requires SortedEntries(entries) && AccountIndex(entries, a) < |entries|
    ensures Net(entries, a) == entries[AccountIndex(entries, a)].amount
  {
    NetPresent(entries, AccountIndex(entries, a));
  }

  lemma SourceMeaning(ledger: seq<Transaction>, es: seq<Entry>, a: AccountId)
    ensures SourceCovers(ledger, Normalize(es), a) <==> Net(es, a) < 0 && Balance(ledger, a) + Net(es, a) >= 0
  {
    NormalizeKeepsNet(es, a);
    NormalizeKeepsNets(es, Anyone());
    if AccountIndex(Normalize(es), a) < |Normalize(es)| {
      SourceNet(Normalize(es), a);
    } else {
      NetAbsent(Normalize(es), a);
    }
  }

  /** A posting under a new reference is accepted exactly if it balances, does something to some account, and, when it
      names a source, debits the source no more than it holds; the source alone is why it can lack funds. */
  lemma PostOutcomes(ledger: seq<Transaction>, reference: Reference, es: seq<Entry>, source: Option<AccountId>)
    requires forall i | 0 <= i < |ledger| :: ledger[i].reference != reference
    ensures var (after, r) := Post(ledger, reference, es, source);
            var funded := source.Some? ==> Net(es, source.value) < 0
                                           && Balance(ledger, source.value) + Net(es, source.value) >= 0;
            && (r.Ok? <==> Total(es) == 0 && (exists a :: Net(es, a) != 0) && funded)
            && (r == Err(InsufficientFunds) <==> Total(es) == 0 && (exists a :: Net(es, a) != 0) && !funded)
            && (r == Err(UnbalancedTransaction) <==> Total(es) != 0)
            && (r.Err? ==> after == ledger)
  {
    PrepareMeaning(es);
    assert TransactionIndex(ledger, reference) == |ledger|;
    if source.Some? {
      SourceMeaning(ledger, es, source.value);
    }
  }

  lemma SourcedStep(ledger: seq<Transaction>, p: Posting, a: AccountId)
    requires Balance(ledger, a) >= 0 && DebitsSourced(p, a)
    ensures Balance(Post(ledger, p.reference, p.entries, p.source).0, a) >= 0
  {
    var entries := Normalize(p.entries);
    NormalizeKeepsNets(p.entries, Only(a));
    if Post(ledger, p.reference, p.entries, p.source).0 != ledger {
      SumAppend(ledger, Transaction(p.reference, entries), NetIn(a));
      if Net(entries, a) < 0 {
        SourceNet(entries, a);
      }
    }
  }

  /** An account debited only by postings that name it as their source never goes negative. */
  lemma {:induction false} SourcedNeverNegative(ledger: seq<Transaction>, ps: seq<Posting>, a: AccountId)
    requires Balance(ledger, a) >= 0
    requires forall i | 0 <= i < |ps| :: DebitsSourced(ps[i], a)
    ensures Balance(PostAll(ledger, ps), a) >= 0
  {
    if |ps| > 0 {
      assert forall i | 0 <= i < |ps| - 1 :: ps[..|ps| - 1][i] == ps[i];
      SourcedNeverNegative(ledger, ps[..|ps| - 1], a);
      SourcedStep(PostAll(ledger, ps[..|ps| - 1]), ps[|ps| - 1], a);
    }
  }

  /** Books stay in order and balanced through any sequence of postings, accepted or not. */
  lemma {:induction false} PostAllKeepsBooks(ledger: seq<Transaction>, ps: seq<Posting>)
    requires BooksOk(ledger)
    ensures BooksOk(PostAll(ledger, ps))
  {
    if |ps| > 0 {
      PostAllKeepsBooks(ledger, ps[..|ps| - 1]);
      var p := ps[|ps| - 1];
      PostKeepsBooks(PostAll(ledger, ps[..|ps| - 1]), p.reference, p.entries, p.source);
    }
  }
}

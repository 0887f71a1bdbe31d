/** Withdrawals: reserving a wallet's funds under a voucher nonce, and settling or releasing them later. */
module Withdrawals {
  import opened ChainStore
  import opened Ledger
  import opened Sequences
  import opened Wrappers

  datatype WithdrawalStatus = Reserved | Completed | Released

  datatype Withdrawal = Withdrawal(
    id: WithdrawalId,
    user: UserId,
    wallet: Wallet,
    contract: string,
    amount: int,
    nonce: nat,
    status: WithdrawalStatus,
    key: Option<string>)

  datatype ReserveInput = ReserveInput(
    id: WithdrawalId,
    user: UserId,
    wallet: Wallet,
    contract: string,
    amount: int,
    key: Option<string>)

  datatype WithdrawalError =
    | InvalidWithdrawalAmount
    | KeyConflict
    | IdTaken
    | PostingRefused(error: LedgerError)

  datatype Vault = Vault(
    withdrawals: seq<Withdrawal>,
    nonces: map<(string, Wallet), nat>,
    ledger: seq<Transaction>)

  datatype Outcome = Complete | Release

  function WithdrawalWith(id: WithdrawalId): Withdrawal -> bool { (w: Withdrawal) => w.id == id }

  function WithdrawalIndex(ws: seq<Withdrawal>, id: WithdrawalId): (i: nat)
    ensures i <= |ws|
    ensures i < |ws| ==> ws[i].id == id
    ensures forall k | 0 <= k < i :: ws[k].id != id
  {
    FirstWhere(ws, WithdrawalWith(id))
  }

  function KeyedBy(user: UserId, key: string): Withdrawal -> bool {
    (w: Withdrawal) => w.user == user && w.key == Some(key)
  }

  function KeyIndex(ws: seq<Withdrawal>, user: UserId, key: string): (i: nat)
    ensures i <= |ws|
    ensures i < |ws| ==> ws[i].user == user && ws[i].key == Some(key)
    ensures forall k | 0 <= k < i :: ws[k].user != user || ws[k].key != Some(key)
  {
    FirstWhere(ws, KeyedBy(user, key))
  }

  function NextNonce(nonces: map<(string, Wallet), nat>, contract: string, wallet: Wallet): nat {
    if (contract, wallet) in nonces then nonces[(contract, wallet)] else 0
  }

  function Drafted(v: Vault, q: ReserveInput): Withdrawal {
    Withdrawal(q.id, q.user, q.wallet, q.contract, q.amount, NextNonce(v.nonces, q.contract, q.wallet), Reserved, q.key)
  }

  function Hold(q: ReserveInput): seq<Entry> { Moving(EscrowAccount(q.wallet), ReservedAccount(q.wallet), q.amount) }

  /** A new withdrawal: a nonce of its own, and the funds moved out of escrow if escrow holds them. */
  function ReserveNew(v: Vault, q: ReserveInput): (Vault, Result<Withdrawal, WithdrawalError>) {
    var (ledger, posted) := Post(v.ledger, WithdrawalReserve(q.id), Hold(q), Some(EscrowAccount(q.wallet)));
    if WithdrawalIndex(v.withdrawals, q.id) < |v.withdrawals| then (v, Err(IdTaken))
    else if posted.Err? then (v, Err(PostingRefused(posted.error)))
    else
      var w := Drafted(v, q);
      (Vault(v.withdrawals + [w], v.nonces[(q.contract, q.wallet) := w.nonce + 1], ledger), Ok(w))
  }

  function Reserve(v: Vault, q: ReserveInput): (Vault, Result<Withdrawal, WithdrawalError>) {
    if q.amount <= 0 then (v, Err(InvalidWithdrawalAmount))
    else if q.key.Some? && KeyIndex(v.withdrawals, q.user, q.key.value) < |v.withdrawals| then
      var w := v.withdrawals[KeyIndex(v.withdrawals, q.user, q.key.value)];
      (v, if w.amount != q.amount || w.contract != q.contract then Err(KeyConflict) else Ok(w))
    else ReserveNew(v, q)
  }

  function OutcomeRef(id: WithdrawalId, outcome: Outcome): Reference {
    if outcome.Complete? then WithdrawalCompleted(id) else WithdrawalReleased(id)
  }

  function OutcomeStatus(outcome: Outcome): WithdrawalStatus {
    if outcome.Complete? then Completed else Released
  }

  /** The held funds go to the contract's treasury, or back to escrow. */
  function Resolve(w: Withdrawal, outcome: Outcome): seq<Entry> {
    Moving(ReservedAccount(w.wallet),
           if outcome.Complete? then TreasuryAccount(w.contract) else EscrowAccount(w.wallet), w.amount)
  }

  /** Settles a reserved withdrawal; any other is returned as it stands. */
  function Transition(v: Vault, id: WithdrawalId, outcome: Outcome)
    : (Vault, Result<Option<Withdrawal>, WithdrawalError>)
  {
    var i := WithdrawalIndex(v.withdrawals, id);
    if i == |v.withdrawals| then (v, Ok(None))
    else
      var w := v.withdrawals[i];
      if w.status != Reserved then (v, Ok(Some(w)))
      else
        var (ledger, posted) :=
          Post(v.ledger, OutcomeRef(id, outcome), Resolve(w, outcome), Some(ReservedAccount(w.wallet)));
        if posted.Err? then (v, Err(PostingRefused(posted.error)))
        else
          var after := w.(status := OutcomeStatus(outcome));
          (v.(withdrawals := v.withdrawals[i := after], ledger := ledger), Ok(Some(after)))
  }

  class WithdrawalTables {
    var withdrawals: seq<Withdrawal>
    var nonces: map<(string, Wallet), nat>
    const book: LedgerBook

    function Contents(): Vault
      reads this, book
    {
      Vault(withdrawals, nonces, book.transactions)
    }

    constructor (book: LedgerBook)
      ensures this.book == book && withdrawals == [] && nonces == map[]
    {
      withdrawals, nonces := [], map[];
      this.book := book;
    }

    method ReserveWithdrawal(q: ReserveInput) returns (r: Result<Withdrawal, WithdrawalError>)
      modifies this, book
      ensures (Contents(), r) == Reserve(old(Contents()), q)
    {
      if q.amount <= 0 {
        return Err(InvalidWithdrawalAmount);
      }
      if q.key.Some? {
        var i := KeyIndex(withdrawals, q.user, q.key.value);
        if i < |withdrawals| {
          if withdrawals[i].amount != q.amount || withdrawals[i].contract != q.contract {
            return Err(KeyConflict);
          }
          return Ok(withdrawals[i]);
        }
      }
      if WithdrawalIndex(withdrawals, q.id) < |withdrawals| {
        return Err(IdTaken);
      }
      var nonce := NextNonce(nonces, q.contract, q.wallet);
      var saved := nonces;
      nonces := nonces[(q.contract, q.wallet) := nonce + 1];
      var posted := book.PostTransaction(WithdrawalReserve(q.id), Hold(q), Some(EscrowAccount(q.wallet)));
      if posted.Err? {
        nonces := saved;
        return Err(PostingRefused(posted.error));
      }
      var w := Withdrawal(q.id, q.user, q.wallet, q.contract, q.amount, nonce, Reserved, q.key);
      withdrawals := withdrawals + [w];
      return Ok(w);
    }

    method TransitionWithdrawal(id: WithdrawalId, outcome: Outcome)
      returns (r: Result<Option<Withdrawal>, WithdrawalError>)
      modifies this`withdrawals, book
      ensures (Contents(), r) == Transition(old(Contents()), id, outcome)
    {
      var i := WithdrawalIndex(withdrawals, id);
      if i == |withdrawals| {
        return Ok(None);
      }
      var current := withdrawals[i];
      if current.status != Reserved {
        return Ok(Some(current));
      }
      var posted :=
        book.PostTransaction(OutcomeRef(id, outcome), Resolve(current, outcome), Some(ReservedAccount(current.wallet)));
      if posted.Err? {
        return Err(PostingRefused(posted.error));
      }
      var after := current.(status := OutcomeStatus(outcome));
      withdrawals := withdrawals[i := after];
      return Ok(Some(after));
    }
  }
}

/** Voucher nonces: over any run those of one contract and wallet count up from zero without a gap. */
module Nonces {
  import opened Balances
  import opened ChainStore
  import opened Ledger
  import opened Sequences
  import opened Withdrawals
  import opened Wrappers

  function InVault(contract: string, wallet: Wallet): Withdrawal -> bool {
    (w: Withdrawal) => w.contract == contract && w.wallet == wallet
  }

  /** Each withdrawal's nonce counts the earlier ones of its contract and wallet, and the next nonce counts them all. */
  ghost predicate NoncesCount(ws: seq<Withdrawal>, nonces: map<(string, Wallet), nat>) {
    && (forall i: nat | i < |ws| :: NonceAt(ws, i))
    && (forall contract, wallet :: NextNonce(nonces, contract, wallet) == Count(ws, InVault(contract, wallet)))
  }

  predicate NonceAt(ws: seq<Withdrawal>, i: nat)
    requires i < |ws|
  {
    ws[i].nonce == Count(ws[..i], InVault(ws[i].contract, ws[i].wallet))
  }

  lemma DraftCounts(v: Vault, q: ReserveInput)
    requires NoncesCount(v.withdrawals, v.nonces)
    ensures NoncesCount(v.withdrawals + [Drafted(v, q)], v.nonces[(q.contract, q.wallet) := Drafted(v, q).nonce + 1])
  {
    var w := Drafted(v, q);
    var ws, nonces := v.withdrawals + [w], v.nonces[(q.contract, q.wallet) := w.nonce + 1];
    forall i: nat | i < |ws| ensures NonceAt(ws, i) {
      if i < |v.withdrawals| {
        assert NonceAt(v.withdrawals, i);
        assert ws[..i] == v.withdrawals[..i];
      } else {
        assert ws[..i] == v.withdrawals;
      }
    }
    forall contract, wallet ensures NextNonce(nonces, contract, wallet) == Count(ws, InVault(contract, wallet)) {
      CountAppend(v.withdrawals, w, InVault(contract, wallet));
    }
  }

  /** A change of status leaves every count as it was. */
  lemma StatusCounts(ws: seq<Withdrawal>, nonces: map<(string, Wallet), nat>, i: nat, status: WithdrawalStatus)
    requires NoncesCount(ws, nonces) && i < |ws|
    ensures NoncesCount(ws[i := ws[i].(status := status)], nonces)
  {
    var after := ws[i := ws[i].(status := status)];
    forall k: nat | k < |after| ensures NonceAt(after, k) {
      assert NonceAt(ws, k);
      CountMatches(ws[..k], InVault(ws[k].contract, ws[k].wallet), after[..k], InVault(ws[k].contract, ws[k].wallet));
    }
    forall contract, wallet ensures NextNonce(nonces, contract, wallet) == Count(after, InVault(contract, wallet)) {
      CountMatches(ws, InVault(contract, wallet), after, InVault(contract, wallet));
    }
  }

  lemma AskCounts(s: Web3, q: ReserveInput)
    requires NoncesCount(s.withdrawals, s.nonces)
    ensures var after := Next(s, AskWithdrawal(q)); NoncesCount(after.withdrawals, after.nonces)
  {
    DraftCounts(Vault(s.withdrawals, s.nonces, s.db.ledger), q);
  }

  lemma EndCounts(s: Web3, id: WithdrawalId, outcome: Outcome)
    requires NoncesCount(s.withdrawals, s.nonces)
    ensures var after := Next(s, EndWithdrawal(id, outcome)); NoncesCount(after.withdrawals, after.nonces)
  {
    var i := WithdrawalIndex(s.withdrawals, id);
    if i < |s.withdrawals| {
      StatusCounts(s.withdrawals, s.nonces, i, OutcomeStatus(outcome));
    }
  }

  lemma NextCounts(s: Web3, step: Web3Step)
    requires NoncesCount(s.withdrawals, s.nonces)
    ensures NoncesCount(Next(s, step).withdrawals, Next(s, step).nonces)
  {
    match step {
      case AskWithdrawal(q) => AskCounts(s, q);
      case EndWithdrawal(id, outcome) => EndCounts(s, id, outcome);
      case _ =>
    }
  }

  lemma {:induction false} RunCounts(users: map<Wallet, UserId>, steps: seq<Web3Step>)
    ensures NoncesCount(Web3After(users, steps).withdrawals, Web3After(users, steps).nonces)
  {
    if |steps| > 0 {
      RunCounts(users, steps[..|steps| - 1]);
      NextCounts(Web3After(users, steps[..|steps| - 1]), steps[|steps| - 1]);
    }
  }

  /** Some withdrawal of the contract and wallet carries this nonce. */
  predicate Carried(ws: seq<Withdrawal>, contract: string, wallet: Wallet, n: nat) {
    exists i: nat :: i < |ws| && InVault(contract, wallet)(ws[i]) && ws[i].nonce == n
  }

  lemma LaterIsHigher(ws: seq<Withdrawal>, nonces: map<(string, Wallet), nat>, contract: string, wallet: Wallet, i: nat,
                      j: nat)
    requires NoncesCount(ws, nonces) && i < j < |ws|
    requires InVault(contract, wallet)(ws[i]) && InVault(contract, wallet)(ws[j])
    ensures ws[i].nonce < ws[j].nonce
  {
    assert NonceAt(ws, i) && NonceAt(ws, j);
    CountGrows(ws, InVault(contract, wallet), i, j);
  }

  lemma CarriedBelow(ws: seq<Withdrawal>, nonces: map<(string, Wallet), nat>, contract: string, wallet: Wallet, n: nat)
    requires NoncesCount(ws, nonces)
    ensures Carried(ws, contract, wallet, n) <==> n < NextNonce(nonces, contract, wallet)
  {
    var mine := InVault(contract, wallet);
    if n < NextNonce(nonces, contract, wallet) {
      var i := NthCounted(ws, mine, n);
      assert NonceAt(ws, i);
    }
    if Carried(ws, contract, wallet, n) {
      var i: nat :| i < |ws| && mine(ws[i]) && ws[i].nonce == n;
      assert NonceAt(ws, i);
      assert ws[..|ws|] == ws;
      CountGrows(ws, mine, i, |ws|);
    }
  }

  /** After any steps the vouchers of one contract and wallet carry exactly the nonces below the one given out next, and
      a later voucher a higher one; so none is used twice, and a refused reservation uses none up. */
  lemma NoncesGapless(users: map<Wallet, UserId>, steps: seq<Web3Step>, contract: string, wallet: Wallet)
    ensures var s := Web3After(users, steps);
            && (forall n: nat ::
                  Carried(s.withdrawals, contract, wallet, n) <==> n < NextNonce(s.nonces, contract, wallet))
            && (forall i: nat, j: nat | i < j < |s.withdrawals| && InVault(contract, wallet)(s.withdrawals[i])
                                        && InVault(contract, wallet)(s.withdrawals[j]) ::
                  s.withdrawals[i].nonce < s.withdrawals[j].nonce)
  {
    var s := Web3After(users, steps);
    RunCounts(users, steps);
    forall n: nat
      ensures Carried(s.withdrawals, contract, wallet, n) <==> n < NextNonce(s.nonces, contract, wallet)
    {
      CarriedBelow(s.withdrawals, s.nonces, contract, wallet, n);
    }
    forall i: nat, j: nat | i < j < |s.withdrawals| && InVault(contract, wallet)(s.withdrawals[i])
                            && InVault(contract, wallet)(s.withdrawals[j])
      ensures s.withdrawals[i].nonce < s.withdrawals[j].nonce
    {
      LaterIsHigher(s.withdrawals, s.nonces, contract, wallet, i, j);
    }
  }
}

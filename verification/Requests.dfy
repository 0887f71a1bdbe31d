/** What a withdrawal request is answered, over all runs: one withdrawal for each idempotency key, whatever is repeated,
    and outcomes that are final. */
module Requests {
  import opened Balances
  import opened ChainStore
  import opened Ledger
  import opened Sequences
  import opened Withdrawals
  import opened Wrappers

  function VaultIn(s: Web3): Vault { Vault(s.withdrawals, s.nonces, s.db.ledger) }

  predicate SameKey(w: Withdrawal, user: UserId, key: Option<string>) { key.Some? && w.user == user && w.key == key }

  /** Every id, and every key of a user, stands for one withdrawal. */
  predicate NamedOnce(ws: seq<Withdrawal>) {
    && (forall i, j | 0 <= i < j < |ws| :: ws[i].id != ws[j].id)
    && (forall i, j | 0 <= i < j < |ws| :: !SameKey(ws[i], ws[j].user, ws[j].key))
  }

  /** Withdrawals are never lost, change nothing but their status, and not even that once they are settled. */
  predicate RowsStay(ws: seq<Withdrawal>, after: seq<Withdrawal>) {
    && |ws| <= |after|
    && forall i | 0 <= i < |ws| :: RowStays(ws[i], after[i])
  }

  predicate RowStays(w: Withdrawal, after: Withdrawal) {
    after == w.(status := after.status) && (w.status != Reserved ==> after.status == w.status)
  }

  lemma NextKeepsRows(s: Web3, step: Web3Step)
    requires NamedOnce(s.withdrawals)
    ensures NamedOnce(Next(s, step).withdrawals) && RowsStay(s.withdrawals, Next(s, step).withdrawals)
  {
    match step {
      case AskWithdrawal(q) => AskKeepsRows(VaultIn(s), q);
      case EndWithdrawal(id, outcome) => EndKeepsRows(VaultIn(s), id, outcome);
      case _ =>
    }
  }

  lemma AskKeepsRows(v: Vault, q: ReserveInput)
    requires NamedOnce(v.withdrawals)
    ensures NamedOnce(Reserve(v, q).0.withdrawals) && RowsStay(v.withdrawals, Reserve(v, q).0.withdrawals)
  {
    var ws := v.withdrawals;
    forall i | 0 <= i < |ws| ensures WithdrawalIndex(ws, q.id) == |ws| ==> ws[i].id != q.id {
    }
  }

  lemma EndKeepsRows(v: Vault, id: WithdrawalId, outcome: Outcome)
    requires NamedOnce(v.withdrawals)
    ensures NamedOnce(Transition(v, id, outcome).0.withdrawals)
    ensures RowsStay(v.withdrawals, Transition(v, id, outcome).0.withdrawals)
  {
  }

  lemma RowsStayOn(a: seq<Withdrawal>, b: seq<Withdrawal>, c: seq<Withdrawal>)
    requires RowsStay(a, b) && RowsStay(b, c)
    ensures RowsStay(a, c)
  {
    forall i | 0 <= i < |a| ensures RowStays(a[i], c[i]) {
      assert RowStays(a[i], b[i]) && RowStays(b[i], c[i]);
    }
  }

  lemma {:induction false} RunKeepsRows(users: map<Wallet, UserId>, steps: seq<Web3Step>)
    ensures NamedOnce(Web3After(users, steps).withdrawals)
  {
    if |steps| > 0 {
      RunKeepsRows(users, steps[..|steps| - 1]);
      NextKeepsRows(Web3After(users, steps[..|steps| - 1]), steps[|steps| - 1]);
    }
  }

  /** Over all runs a withdrawal keeps its amount, wallet, contract, nonce and key, and once it is completed or released
      it stays so. */
  lemma {:induction false} OutcomesAreFinal(users: map<Wallet, UserId>, steps: seq<Web3Step>, more: seq<Web3Step>)
    ensures RowsStay(Web3After(users, steps).withdrawals, Web3After(users, steps + more).withdrawals)
  {
    if |more| == 0 {
      assert steps + more == steps;
    } else {
      var n := |more| - 1;
      OutcomesAreFinal(users, steps, more[..n]);
      RunKeepsRows(users, steps + more[..n]);
      assert steps + more == (steps + more[..n]) + [more[n]];
      assert (steps + more)[..|steps + more| - 1] == steps + more[..n];
      NextKeepsRows(Web3After(users, steps + more[..n]), more[n]);
      RowsStayOn(Web3After(users, steps).withdrawals, Web3After(users, steps + more[..n]).withdrawals,
                 Web3After(users, steps + more).withdrawals);
    }
  }

  lemma KeyFound(ws: seq<Withdrawal>, user: UserId, key: Option<string>, i: nat)
    requires NamedOnce(ws) && i < |ws| && SameKey(ws[i], user, key)
    ensures KeyIndex(ws, user, key.value) == i
  {
  }

  /** The withdrawal is what the request asked for. */
  predicate Grants(q: ReserveInput, w: Withdrawal) {
    && w.user == q.user && w.amount == q.amount && w.contract == q.contract
    && (q.key.Some? ==> w.key == q.key)
  }

  /** A withdrawal of the user under the request's key asked for something else. */
  predicate KeyTaken(ws: seq<Withdrawal>, q: ReserveInput) {
    exists i :: 0 <= i < |ws| && SameKey(ws[i], q.user, q.key)
                && (ws[i].amount != q.amount || ws[i].contract != q.contract)
  }

  predicate KeyKnown(ws: seq<Withdrawal>, q: ReserveInput) {
    exists i :: 0 <= i < |ws| && SameKey(ws[i], q.user, q.key)
  }

  /** After any steps: a request is answered with a withdrawal of exactly what it asked for, which is on record; it is a
      new, reserved one for the request's wallet unless the key was known; it is refused for its key exactly when the
      user's withdrawal under that key is for another amount or contract; and whatever is refused changes nothing. */
  lemma RequestIsAnswered(users: map<Wallet, UserId>, steps: seq<Web3Step>, q: ReserveInput)
    ensures var s := Web3After(users, steps);
            var (v, r) := Reserve(VaultIn(s), q);
            && (r.Ok? ==> Grants(q, r.value) && r.value in v.withdrawals)
            && (r.Ok? && !KeyKnown(s.withdrawals, q) ==>
                  && v.withdrawals == s.withdrawals + [r.value]
                  && r.value.id == q.id && r.value.wallet == q.wallet && r.value.status == Reserved)
            && (KeyKnown(s.withdrawals, q) || r.Err? ==> v == VaultIn(s))
            && (r == Err(KeyConflict) <==> q.amount > 0 && KeyTaken(s.withdrawals, q))
            && (r == Err(InvalidWithdrawalAmount) <==> q.amount <= 0)
            && (q.amount > 0 && KeyKnown(s.withdrawals, q) && !KeyTaken(s.withdrawals, q) ==> r.Ok?)
  {
    var s := Web3After(users, steps);
    RunKeepsRows(users, steps);
    if KeyKnown(s.withdrawals, q) {
      var i :| 0 <= i < |s.withdrawals| && SameKey(s.withdrawals[i], q.user, q.key);
      KeyFound(s.withdrawals, q.user, q.key, i);
      forall j | 0 <= j < |s.withdrawals| && SameKey(s.withdrawals[j], q.user, q.key) ensures j == i {
        KeyFound(s.withdrawals, q.user, q.key, j);
      }
    }
  }

  /** The same request, however often and whenever it comes again, and whatever happened in between. */
  predicate Repeats(q: ReserveInput, again: ReserveInput) {
    && q.key.Some? && again.user == q.user && again.key == q.key
    && again.amount == q.amount && again.contract == q.contract
  }

  /** A keyed request that was granted once is answered with the same withdrawal, with its nonce, at any later time, and
      changes nothing. */
  lemma RepeatedRequest(users: map<Wallet, UserId>, steps: seq<Web3Step>, more: seq<Web3Step>, q: ReserveInput,
                        again: ReserveInput)
    requires Repeats(q, again) && Reserve(VaultIn(Web3After(users, steps)), q).1.Ok?
    ensures var w := Reserve(VaultIn(Web3After(users, steps)), q).1.value;
            var later := VaultIn(Web3After(users, steps + [AskWithdrawal(q)] + more));
            var (v, r) := Reserve(later, again);
            v == later && r.Ok? && RowStays(w, r.value)
  {
    var s, asked := Web3After(users, steps), steps + [AskWithdrawal(q)];
    var w := Reserve(VaultIn(s), q).1.value;
    assert asked[..|asked| - 1] == steps;
    RequestIsAnswered(users, steps, q);
    var ws := Web3After(users, asked).withdrawals;
    var i :| 0 <= i < |ws| && ws[i] == w;
    OutcomesAreFinal(users, asked, more);
    RunKeepsRows(users, asked + more);
    var after := Web3After(users, asked + more).withdrawals;
    assert RowStays(ws[i], after[i]);
    KeyFound(after, again.user, again.key, i);
  }

  /** What ending withdrawal i answers, given that no posting is refused. */
  lemma EndIsRecorded(v: Vault, i: nat, outcome: Outcome)
    requires NamedOnce(v.withdrawals) && i < |v.withdrawals| && Transition(v, v.withdrawals[i].id, outcome).1.Ok?
    ensures var (after, r), w := Transition(v, v.withdrawals[i].id, outcome), v.withdrawals[i];
            if w.status != Reserved then r == Ok(Some(w)) && after == v
            else
              var ended := w.(status := if outcome == Complete then Completed else Released);
              r == Ok(Some(ended)) && after.withdrawals == v.withdrawals[i := ended]
  {
    assert WithdrawalIndex(v.withdrawals, v.withdrawals[i].id) == i;
  }

  /** After any steps: settling or releasing a reserved withdrawal succeeds, sets its status to the outcome and leaves
      every other as it was; one that is not reserved is returned as it stands. */
  lemma OutcomeIsRecorded(users: map<Wallet, UserId>, steps: seq<Web3Step>, contract: string, i: nat, outcome: Outcome)
    requires forall k | 0 <= k < |steps| :: StepOk(steps[k], contract)
    requires i < |Web3After(users, steps).withdrawals|
    ensures var s := Web3After(users, steps);
            var (v, r), w := Transition(VaultIn(s), s.withdrawals[i].id, outcome), s.withdrawals[i];
            if w.status != Reserved then r == Ok(Some(w)) && v == VaultIn(s)
            else
              var ended := w.(status := if outcome == Complete then Completed else Released);
              r == Ok(Some(ended)) && v.withdrawals == s.withdrawals[i := ended]
  {
    var s := Web3After(users, steps);
    RunKeepsRows(users, steps);
    RunKeepsBank(users, steps, contract);
    TransitionKeepsBank(BankIn(s), s.nonces, contract, s.withdrawals[i].id, outcome);
    EndIsRecorded(VaultIn(s), i, outcome);
  }
}

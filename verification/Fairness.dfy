/** Settlement stated for whole hands: conservation, the side-pot bound, and who gets the odd chips. */
module Fairness {
  import Cards
  import opened BettingInvariant
  import opened Evaluator
  import opened Pots
  import opened Reducer
  import opened Sequences
  import opened Settlement
  import opened Showdown
  import opened Table
  import opened Wrappers

  /** What settlement needs of the players: distinct ids, no negative commitment, and a contender who covers all. */
  ghost predicate Payable(s: State) {
    && UniqueIds(s.players)
    && NonnegativeHands(s.players)
    && Covered(s.players)
    && forall i | 0 <= i < |s.players| :: s.players[i].seat >= 0
  }

  lemma ContenderExists(ps: seq<Player>)
    requires Covered(ps)
    ensures Count(ps, IsContender) >= 1
  {
    CountNone(ps, IsContender);
    var i :| 0 <= i < |ps| && ps[i].status != Folded;
    assert IsContender(ps[i]);
  }

  lemma SoleContender(ps: seq<Player>) returns (c: nat)
    requires UniqueIds(ps) && Count(ps, IsContender) == 1
    ensures c < |ps| && forall j | 0 <= j < |ps| :: IsContender(ps[j]) <==> j == c
    ensures IdsOf(ps, IsContender) == [ps[c].id]
  {
    CountNone(ps, IsContender);
    CountTwo(ps, IsContender);
    c :| 0 <= c < |ps| && IsContender(ps[c]);
    IdsCounted(ps, IsContender);
    IdsOfAt(ps, IsContender, c);
    assert ps[c].id in IdsOf(ps, IsContender);
  }

  /** The sole-contender shortcut pays exactly what the layers would, so every payout is the sum of the layers'. */
  lemma PayoutIsLayers(s: State, id: PlayerId)
    requires Payable(s)
    ensures Payout(s, id)
            == LayersPay(s.players, Levels(s.players), |Levels(s.players)|, ShowdownScore(s),
                         ClockDistance(s.players, s.buttonSeat), id)
  {
    var ps := s.players;
    var score, key := ShowdownScore(s), ClockDistance(ps, s.buttonSeat);
    if Count(ps, IsContender) == 1 {
      var c := SoleContender(ps);
      SoleLayers(ps, c, score, key, id);
    } else {
      LayersAreRefundsAndPots(ps, Levels(ps), |Levels(ps)|, score, key, id);
    }
  }

  function PayoutTo(s: State): Player -> int
    requires forall i | 0 <= i < |s.players| :: s.players[i].seat >= 0
  {
    (p: Player) => Payout(s, p.id)
  }

  /** Pots and refunds partition the commitments. */
  lemma PayoutsConserve(s: State)
    requires Payable(s)
    ensures Sum(s.players, PayoutTo(s)) == Sum(s.players, HandOf)
  {
    var ps := s.players;
    var score, key := ShowdownScore(s), ClockDistance(ps, s.buttonSeat);
    forall i | 0 <= i < |ps|
      ensures PayoutTo(s)(ps[i]) == LayersPayments(ps, Levels(ps), |Levels(ps)|, score, key)(ps[i])
    {
      PayoutIsLayers(s, ps[i].id);
    }
    SumMatches(ps, PayoutTo(s), ps, LayersPayments(ps, Levels(ps), |Levels(ps)|, score, key));
    LayersPayAll(ps, |Levels(ps)|, score, key);
    CapAll(ps);
  }

  /** No player is paid more than everyone's commitments, each capped at the player's own. */
  lemma PayoutBounded(s: State, i: nat)
    requires Payable(s) && i < |s.players|
    ensures 0 <= Payout(s, s.players[i].id) <= CapSum(s.players, s.players[i].handCommitted)
  {
    PayoutIsLayers(s, s.players[i].id);
    LayersBounded(s.players, ShowdownScore(s), ClockDistance(s.players, s.buttonSeat), i);
  }

  lemma FoldedLayer(ps: seq<Player>, k: nat, score: PlayerId -> HandScore, key: PlayerId -> int, i: nat)
    requires UniqueIds(ps) && Covered(ps) && k < |Levels(ps)| && i < |ps| && ps[i].status == Folded
    ensures LayerPays(ps, Levels(ps), k, score, key, ps[i].id) == 0
  {
    var level := Levels(ps)[k];
    CoveredEligible(ps, k);
    IdsOfAt(ps, EligibleAt(level), i);
    if !Uncontested(ps, level) {
      var pot := Pot(LayerAmount(ps, Levels(ps), k), IdsOf(ps, EligibleAt(level)));
      WinnersFacts(pot, score);
      var winners := WinnersOf(pot, score);
      var order := SortBy(winners, key);
      assert ps[i].id !in order;
      assert ps[i].id !in order[..pot.amount % |winners|];
    }
  }

  /** Neither a pot nor a refund ever goes to a player who folded. */
  lemma FoldedGetNothing(s: State, i: nat)
    requires Payable(s) && i < |s.players| && s.players[i].status == Folded
    ensures Payout(s, s.players[i].id) == 0
  {
    var ps := s.players;
    var f := LayerOf(ps, Levels(ps), ShowdownScore(s), ClockDistance(ps, s.buttonSeat), ps[i].id);
    PayoutIsLayers(s, ps[i].id);
    forall j: nat | j < |Levels(ps)| ensures f(j) == 0 {
      FoldedLayer(ps, j, ShowdownScore(s), ClockDistance(ps, s.buttonSeat), i);
    }
    TotalNothing(f, |Levels(ps)|);
  }

  lemma {:induction false} FaultIsCards(s: State, pots: seq<Pot>)
    requires forall j | 0 <= j < |pots| :: |pots[j].eligible| > 0
    ensures PotFault(s, pots) != Some(NoEligiblePlayer)
  {
    if |pots| > 0 {
      FaultIsCards(s, pots[1..]);
    }
  }

  /** Settlement never meets a contested pot that nobody can win. */
  lemma AlwaysPayable(s: State)
    requires Payable(s)
    ensures Settle(s) != Err(NoEligiblePlayer)
  {
    PotsHaveEligible(s.players, |Levels(s.players)|);
    match ShowdownState(s) {
      case Ok(t) => FaultIsCards(t, PotsOf(t.players));
      case Err(_) => RunOutFault(s.board, s.deck);
    }
  }

  lemma {:induction false} RunOutFromFault(board: seq<Cards.Card>, deck: seq<Cards.Card>)
    ensures RunOutFrom(board, deck) != Err(NoEligiblePlayer)
    decreases 5 - |board|
  {
    if |board| < 5 && |deck| >= 2 {
      RunOutFromFault(board + [deck[1]], deck[2..]);
    }
  }

  lemma RunOutFault(board: seq<Cards.Card>, deck: seq<Cards.Card>)
    ensures RunOut(board, deck) != Err(NoEligiblePlayer)
  {
    if |board| == 0 && |deck| >= 4 {
      RunOutFromFault(board + deck[1..4], deck[4..]);
    } else {
      RunOutFromFault(board, deck);
    }
  }

  // ---- Chips ----

  function ChipsOf(p: Player): int { p.stack + p.handCommitted }

  /** All chips on the table: stacks and commitments. */
  function Chips(s: State): int { Sum(s.players, ChipsOf) }

  lemma PayableAfterRunOut(s: State, t: State)
    requires Payable(s) && t == s.(board := t.board, deck := t.deck)
    ensures Payable(t)
  {
  }

  /** Settlement neither creates nor destroys chips, and leaves no commitment behind. */
  lemma SettleConserves(s: State)
    requires Payable(s) && Settle(s).Ok?
    ensures Chips(Settle(s).value) == Chips(s)
    ensures forall i | 0 <= i < |s.players| ::
              Settle(s).value.players[i].handCommitted == 0 == Settle(s).value.players[i].streetCommitted
  {
    var t := ShowdownState(s).value;
    PayableAfterRunOut(s, t);
    SettledConserves(t);
  }

  function StackAnd(s: State): Player -> int
    requires forall i | 0 <= i < |s.players| :: s.players[i].seat >= 0
  {
    (p: Player) => p.stack + Payout(s, p.id)
  }

  lemma SettledConserves(t: State)
    requires Payable(t)
    ensures Chips(Settled(t)) == Chips(t)
  {
    var ps := t.players;
    PayoutsConserve(t);
    SumAdds(ps, StackOf, ps, PayoutTo(t), ps, StackAnd(t));
    SumAdds(ps, StackOf, ps, HandOf, ps, ChipsOf);
    SumMatches(ps, StackAnd(t), Settled(t).players, ChipsOf);
  }

  // ---- Winners and odd chips ----

  lemma {:induction false} MaxSeatSeated(ps: seq<Player>)
    requires |ps| > 0 && forall i | 0 <= i < |ps| :: ps[i].seat == i
    ensures MaxSeat(ps) == |ps| - 1
  {
    if |ps| > 1 {
      assert forall i | 0 <= i < |ps| - 1 :: ps[..|ps| - 1][i] == ps[i];
      MaxSeatSeated(ps[..|ps| - 1]);
    }
  }

  /** The clock used for odd chips counts seats from the left of the button, the button itself last. */
  lemma ClockIsGap(ps: seq<Player>, button: nat, i: nat)
    requires Seated(ps) && button < |ps| && i < |ps|
    ensures ClockDistance(ps, button)(ps[i].id) == Gap(|ps|, button, i)
  {
    var n := |ps|;
    MaxSeatSeated(ps);
    SeatOfUnique(ps, i);
    if i >= button {
      WrapMod(i - button + n, n);
    } else {
      SmallMod(i - button + n, n);
    }
  }

  lemma {:induction false} KeysDistinctInOrder(order: seq<PlayerId>, key: PlayerId -> int, a: PlayerId, b: PlayerId,
                                               m: nat)
    requires SortedBy(order, key) && m <= |order|
    requires a in order[..m] && b in order && b !in order[..m]
    ensures key(a) <= key(b)
  {
    assert forall x | 0 <= x < m :: order[x] == order[..m][x];
    var i :| 0 <= i < m && order[..m][i] == a;
    var j :| 0 <= j < |order| && order[j] == b;
    assert order[i] == a;
  }

  /** Two winners of a pot differ by at most one chip, and the one paid more sits nearer the left of the button. */
  lemma OddChipsClockwise(ps: seq<Player>, button: nat, amount: int, winners: seq<PlayerId>, i: nat, j: nat)
    requires Seated(ps) && button < |ps| && i < |ps| && j < |ps|
    requires amount >= 0 && ps[i].id in winners && ps[j].id in winners
    ensures var order := SortBy(winners, ClockDistance(ps, button));
            var a := Award(amount, winners, order, ps[i].id);
            var b := Award(amount, winners, order, ps[j].id);
            && -1 <= a - b <= 1
            && (a > b ==> Gap(|ps|, button, i) < Gap(|ps|, button, j))
  {
    var key := ClockDistance(ps, button);
    var order := SortBy(winners, key);
    var m := amount % |winners|;
    ClockIsGap(ps, button, i);
    ClockIsGap(ps, button, j);
    if ps[i].id in order[..m] && ps[j].id !in order[..m] {
      KeysDistinctInOrder(order, key, ps[i].id, ps[j].id, m);
      if Gap(|ps|, button, i) == Gap(|ps|, button, j) {
        GapInjective(|ps|, button, i, j);
      }
    }
  }

  /** The winners of a pot are exactly its eligible players that no eligible player beats. */
  lemma WinnersAreBest(pot: Pot, score: PlayerId -> HandScore, id: PlayerId)
    requires |pot.eligible| > 1
    ensures id in WinnersOf(pot, score) <==>
            id in pot.eligible
            && forall other | other in pot.eligible :: Compare(score(id), score(other)) >= 0
  {
    BeatenByNoneIn(id, pot.eligible, score);
  }
}

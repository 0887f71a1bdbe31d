/** What each player is paid, exactly: everything everyone put in above the level where a better hand still competes. */
module Winnings {
  import opened BettingInvariant
  import opened Evaluator
  import opened Fairness
  import opened HandRanking
  import opened Numbers
  import opened Pots
  import opened Sequences
  import opened Settlement
  import opened Showdown
  import opened Table
  import opened Wrappers

  /** A contender who put in at least b has a better hand than player i, unless b is nothing. */
  predicate LosesUpTo(ps: seq<Player>, score: PlayerId -> HandScore, i: nat, b: int)
    requires i < |ps|
  {
    b == 0 || exists j :: 0 <= j < |ps| && ps[j].status != Folded && ps[j].handCommitted == b
                          && Compare(score(ps[j].id), score(ps[i].id)) > 0
  }

  /** Every other contender who put in more than b has a worse hand than player i. */
  predicate WinsAbove(ps: seq<Player>, score: PlayerId -> HandScore, i: nat, b: int)
    requires i < |ps|
  {
    forall j | 0 <= j < |ps| && j != i && ps[j].status != Folded && ps[j].handCommitted > b ::
      Compare(score(ps[i].id), score(ps[j].id)) > 0
  }

  lemma SoleWinner(pot: Pot, score: PlayerId -> HandScore, key: PlayerId -> int, id: PlayerId)
    requires id in pot.eligible && Distinct(pot.eligible)
    requires forall other | other in pot.eligible && other != id :: Compare(score(id), score(other)) > 0
    ensures PotPays(pot, score, key, id) == pot.amount
  {
    var winners := WinnersOf(pot, score);
    if |pot.eligible| > 1 {
      WinnersAreBest(pot, score, id);
      CompareTotal(score(id), score(id));
      assert forall other | other in pot.eligible && other != id :: Compare(score(id), score(other)) >= 0;
      forall other | other in winners ensures other == id {
        WinnersAreBest(pot, score, other);
        CompareTotal(score(id), score(other));
      }
      WinnersFacts(pot, score);
    }
    OnlyOne(winners, id);
    var order := SortBy(winners, key);
    assert order[..pot.amount % 1] == [];
  }

  lemma BeatenTakesNothing(pot: Pot, score: PlayerId -> HandScore, key: PlayerId -> int, id: PlayerId, other: PlayerId)
    requires other in pot.eligible && Distinct(pot.eligible) && other != id
    requires Compare(score(other), score(id)) > 0
    ensures PotPays(pot, score, key, id) == 0
  {
    WinnersFacts(pot, score);
    var winners := WinnersOf(pot, score);
    if |pot.eligible| > 1 {
      WinnersAreBest(pot, score, id);
      CompareTotal(score(id), score(other));
    }
    assert id !in winners;
    var order := SortBy(winners, key);
    assert id !in order;
    assert id !in order[..pot.amount % |winners|];
  }

  /** What layer k pays player i. */
  lemma LayerWon(ps: seq<Player>, k: nat, score: PlayerId -> HandScore, key: PlayerId -> int, i: nat, b: int)
    requires UniqueIds(ps) && NonnegativeHands(ps) && k < |Levels(ps)| && i < |ps| && ps[i].status != Folded
    requires b < Levels(ps)[k] <= ps[i].handCommitted && WinsAbove(ps, score, i, b)
    ensures LayerPays(ps, Levels(ps), k, score, key, ps[i].id) == LayerAmount(ps, Levels(ps), k)
  {
    var level := Levels(ps)[k];
    IdsOfAt(ps, Contributes(level), i);
    IdsOfAt(ps, EligibleAt(level), i);
    if !Uncontested(ps, level) {
      var pot := Pot(LayerAmount(ps, Levels(ps), k), IdsOf(ps, EligibleAt(level)));
      IdsDistinct(ps, EligibleAt(level));
      forall other | other in pot.eligible && other != ps[i].id ensures Compare(score(ps[i].id), score(other)) > 0 {
        var j :| 0 <= j < |ps| && ps[j].id == other && EligibleAt(level)(ps[j]);
      }
      SoleWinner(pot, score, key, ps[i].id);
    }
  }

  lemma LayerLost(ps: seq<Player>, k: nat, score: PlayerId -> HandScore, key: PlayerId -> int, i: nat, b: int)
    requires UniqueIds(ps) && NonnegativeHands(ps) && k < |Levels(ps)| && i < |ps|
    requires Levels(ps)[k] <= b <= ps[i].handCommitted && LosesUpTo(ps, score, i, b)
    ensures LayerPays(ps, Levels(ps), k, score, key, ps[i].id) == 0
  {
    LevelsRise(ps, k);
    var j :| 0 <= j < |ps| && ps[j].status != Folded && ps[j].handCommitted == b
             && Compare(score(ps[j].id), score(ps[i].id)) > 0;
    BeatenInLayer(ps, k, score, key, i, j);
  }

  lemma CapReaches(ps: seq<Player>, k: nat, h: int)
    requires NonnegativeHands(ps) && k < |Levels(ps)| && Levels(ps)[k] <= h
    ensures CapBound(ps, h)(k + 1) - CapBound(ps, h)(k) == LayerAmount(ps, Levels(ps), k)
  {
    LevelsRise(ps, k);
    LayerGrowth(ps, k);
  }

  lemma CapStays(ps: seq<Player>, k: nat, h: int)
    requires k < |Levels(ps)| && h <= Below(Levels(ps), k)
    ensures CapBound(ps, h)(k + 1) == CapBound(ps, h)(k)
  {
    LevelsRise(ps, k);
  }

  /** One more layer adds its amount to the capped sum, unless the cap lies below it. */
  lemma CapGrowth(ps: seq<Player>, k: nat, h: int)
    requires NonnegativeHands(ps) && k < |Levels(ps)| && (h == 0 || h in Levels(ps))
    ensures CapBound(ps, h)(k + 1) - CapBound(ps, h)(k)
            == if Levels(ps)[k] <= h then LayerAmount(ps, Levels(ps), k) else 0
  {
    if Levels(ps)[k] <= h {
      CapReaches(ps, k, h);
    } else {
      LevelsRise(ps, k);
      if h != 0 {
        BetweenLevels(Levels(ps), k, h);
      }
      CapStays(ps, k, h);
    }
  }

  /** The growth of what everyone committed between two amounts. */
  function Between(ps: seq<Player>, low: int, high: int): nat -> int {
    (k: nat) => CapBound(ps, high)(k) - CapBound(ps, low)(k)
  }

  lemma CommitmentIsLevel(ps: seq<Player>, i: nat)
    requires NonnegativeHands(ps) && i < |ps|
    ensures ps[i].handCommitted == 0 || ps[i].handCommitted in Levels(ps)
  {
  }

  lemma LayerTaken(ps: seq<Player>, score: PlayerId -> HandScore, key: PlayerId -> int, i: nat, b: int, j: nat)
    requires UniqueIds(ps) && NonnegativeHands(ps) && i < |ps| && ps[i].status != Folded && j < |Levels(ps)|
    requires 0 <= b <= ps[i].handCommitted && (b == 0 || b in Levels(ps))
    requires LosesUpTo(ps, score, i, b) && WinsAbove(ps, score, i, b)
    ensures var f, g := LayerOf(ps, Levels(ps), score, key, ps[i].id), Between(ps, b, ps[i].handCommitted);
            g(j + 1) == g(j) + f(j)
  {
    CommitmentIsLevel(ps, i);
    CapGrowth(ps, j, b);
    CapGrowth(ps, j, ps[i].handCommitted);
    LayerBounded(ps, j, score, key, i);
    if Levels(ps)[j] <= b {
      LayerLost(ps, j, score, key, i, b);
    } else if Levels(ps)[j] <= ps[i].handCommitted {
      LayerWon(ps, j, score, key, i, b);
    }
  }

  lemma BetweenEnds(ps: seq<Player>, low: int, high: int)
    requires NonnegativeHands(ps) && 0 <= low <= high <= Below(Levels(ps), |Levels(ps)|)
    ensures Between(ps, low, high)(0) == 0
    ensures Between(ps, low, high)(|Levels(ps)|) == CapSum(ps, high) - CapSum(ps, low)
  {
    var n := |Levels(ps)|;
    assert Below(Levels(ps), 0) == 0 && Min(low, 0) == 0 == Min(high, 0);
    assert Min(low, Below(Levels(ps), n)) == low && Min(high, Below(Levels(ps), n)) == high;
    assert CapBound(ps, low)(0) == CapBound(ps, high)(0);
    assert CapBound(ps, low)(n) == CapSum(ps, low) && CapBound(ps, high)(n) == CapSum(ps, high);
  }

  lemma LayersTaken(ps: seq<Player>, score: PlayerId -> HandScore, key: PlayerId -> int, i: nat, b: int)
    requires UniqueIds(ps) && NonnegativeHands(ps) && i < |ps| && ps[i].status != Folded
    requires 0 <= b <= ps[i].handCommitted && (b == 0 || b in Levels(ps))
    requires LosesUpTo(ps, score, i, b) && WinsAbove(ps, score, i, b)
    ensures LayersPay(ps, Levels(ps), |Levels(ps)|, score, key, ps[i].id)
            == CapSum(ps, ps[i].handCommitted) - CapSum(ps, b)
  {
    var f, g := LayerOf(ps, Levels(ps), score, key, ps[i].id), Between(ps, b, ps[i].handCommitted);
    forall j: nat | j < |Levels(ps)| ensures g(j + 1) == g(j) + f(j) {
      LayerTaken(ps, score, key, i, b, j);
    }
    TopLevel(ps, i);
    BetweenEnds(ps, b, ps[i].handCommitted);
    TotalOf(f, g, |Levels(ps)|);
  }

  /** A contender who loses to a better hand up to some commitment, and to nobody above it, is paid exactly what all
      players put in above that commitment, each counted up to the contender's own. */
  lemma PaidWhatIsWon(s: State, i: nat, b: int)
    requires Payable(s) && i < |s.players| && s.players[i].status != Folded
    requires 0 <= b <= s.players[i].handCommitted
    requires LosesUpTo(s.players, ShowdownScore(s), i, b) && WinsAbove(s.players, ShowdownScore(s), i, b)
    ensures Payout(s, s.players[i].id) == CapSum(s.players, s.players[i].handCommitted) - CapSum(s.players, b)
  {
    if b != 0 {
      var j :| 0 <= j < |s.players| && s.players[j].status != Folded && s.players[j].handCommitted == b
               && Compare(ShowdownScore(s)(s.players[j].id), ShowdownScore(s)(s.players[i].id)) > 0;
      CommitmentIsLevel(s.players, j);
    }
    PayoutIsLayers(s, s.players[i].id);
    LayersTaken(s.players, ShowdownScore(s), ClockDistance(s.players, s.buttonSeat), i, b);
  }

  /** A contender beaten by someone who put in at least as much is paid nothing. */
  lemma BeatenGetsNothing(s: State, i: nat, j: nat)
    requires Payable(s) && i < |s.players| && j < |s.players| && s.players[j].status != Folded
    requires s.players[j].handCommitted >= s.players[i].handCommitted
    requires Compare(ShowdownScore(s)(s.players[j].id), ShowdownScore(s)(s.players[i].id)) > 0
    ensures Payout(s, s.players[i].id) == 0
  {
    var ps := s.players;
    var score, key := ShowdownScore(s), ClockDistance(ps, s.buttonSeat);
    var f := LayerOf(ps, Levels(ps), score, key, ps[i].id);
    PayoutIsLayers(s, ps[i].id);
    forall k: nat | k < |Levels(ps)| ensures f(k) == 0 {
      LayerBounded(ps, k, score, key, i);
      if Levels(ps)[k] <= ps[i].handCommitted {
        BeatenInLayer(ps, k, score, key, i, j);
      }
    }
    TotalNothing(f, |Levels(ps)|);
  }

  lemma BeatenInLayer(ps: seq<Player>, k: nat, score: PlayerId -> HandScore, key: PlayerId -> int, i: nat, j: nat)
    requires UniqueIds(ps) && k < |Levels(ps)| && i < |ps| && j < |ps| && ps[j].status != Folded
    requires Levels(ps)[k] <= ps[i].handCommitted && Levels(ps)[k] <= ps[j].handCommitted
    requires Compare(score(ps[j].id), score(ps[i].id)) > 0
    ensures LayerPays(ps, Levels(ps), k, score, key, ps[i].id) == 0
  {
    var level := Levels(ps)[k];
    CompareTotal(score(ps[i].id), score(ps[i].id));
    assert j != i;
    CountTwo(ps, Contributes(level));
    assert Contributes(level)(ps[i]) && Contributes(level)(ps[j]);
    IdsOfAt(ps, EligibleAt(level), j);
    IdsDistinct(ps, EligibleAt(level));
    BeatenTakesNothing(Pot(LayerAmount(ps, Levels(ps), k), IdsOf(ps, EligibleAt(level))), score, key, ps[i].id,
                       ps[j].id);
  }

  /** The settlement puts whoever is all in and has chips back into play, and brings each player what the showdown pays:
      nothing to a player who folded or is beaten by someone with at least as much in, and exactly the won part of the
      commitments to a contender who is beaten up to b only. */
  lemma SettlementPays(s: State, i: nat, b: int)
    requires Payable(s) && Settle(s).Ok? && i < |s.players| && 0 <= b <= s.players[i].handCommitted
    ensures ShowdownState(s).Ok? && |Settle(s).value.players| == |s.players|
    ensures var won := Settle(s).value.players[i].stack - s.players[i].stack;
            var score, ps := ShowdownScore(ShowdownState(s).value), s.players;
            && Settle(s).value.players[i].id == ps[i].id
            && Settle(s).value.players[i].status
               == (if ps[i].status == AllIn && ps[i].stack + won > 0 then Active else ps[i].status)
            && (ps[i].status == Folded ==> won == 0)
            && (forall j | 0 <= j < |ps| && ps[j].status != Folded && ps[j].handCommitted >= ps[i].handCommitted
                           && Compare(score(ps[j].id), score(ps[i].id)) > 0 :: won == 0)
            && (ps[i].status != Folded && LosesUpTo(ps, score, i, b) && WinsAbove(ps, score, i, b) ==>
                  won == CapSum(ps, ps[i].handCommitted) - CapSum(ps, b))
  {
    var t := ShowdownState(s).value;
    PayableAfterRunOut(s, t);
    var score, ps := ShowdownScore(t), s.players;
    if ps[i].status == Folded {
      FoldedGetNothing(t, i);
    } else if LosesUpTo(ps, score, i, b) && WinsAbove(ps, score, i, b) {
      PaidWhatIsWon(t, i, b);
    }
    forall j | 0 <= j < |ps| && ps[j].status != Folded && ps[j].handCommitted >= ps[i].handCommitted
               && Compare(score(ps[j].id), score(ps[i].id)) > 0
      ensures Payout(t, ps[i].id) == 0
    {
      BeatenGetsNothing(t, i, j);
    }
  }
}

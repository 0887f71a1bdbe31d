/** What settlement guarantees: every chip goes out once, nobody wins more than they covered, and the pot can
    always be paid. */
module Settlement {
  import opened BettingInvariant
  import opened Evaluator
  import opened Numbers
  import opened Pots
  import opened Sequences
  import opened Showdown
  import opened Table
  import opened Wrappers

  // ---- A layer is the growth of the capped commitments ----

  function Capped(x: int): Player -> int { (p: Player) => Min(p.handCommitted, x) }

  /** The chips all players together committed up to x each. */
  function CapSum(ps: seq<Player>, x: int): int { Sum(ps, Capped(x)) }

  lemma {:induction false} LayerSum(ps: seq<Player>, previous: int, level: int)
    requires previous <= level
    requires forall i | 0 <= i < |ps| :: ps[i].handCommitted >= level || ps[i].handCommitted <= previous
    ensures (level - previous) * Count(ps, Contributes(level)) == CapSum(ps, level) - CapSum(ps, previous)
  {
    if |ps| > 0 {
      var n := |ps| - 1;
      forall i | 0 <= i < n
        ensures ps[..n][i].handCommitted >= level || ps[..n][i].handCommitted <= previous
      {
        assert ps[..n][i] == ps[i];
      }
      LayerSum(ps[..n], previous, level);
      var c := Count(ps[..n], Contributes(level));
      assert (level - previous) * (c + 1) == (level - previous) * c + (level - previous);
    }
  }

  predicate NonnegativeHands(ps: seq<Player>) {
    forall i | 0 <= i < |ps| :: ps[i].handCommitted >= 0
  }

  lemma LevelsRise(ps: seq<Player>, k: nat)
    requires k < |Levels(ps)|
    ensures 0 <= Below(Levels(ps), k) < Levels(ps)[k]
  {
    var levels := Levels(ps);
    assert levels[k] in levels;
    if k > 0 {
      assert levels[k - 1] in levels;
    }
  }

  lemma BetweenLevels(levels: seq<int>, k: nat, h: int)
    requires Ascends(levels) && k < |levels| && h in levels
    ensures h >= levels[k] || h <= Below(levels, k)
  {
    var j :| 0 <= j < |levels| && levels[j] == h;
  }

  /** No commitment lies strictly between two neighbouring levels. */
  lemma NothingBetween(ps: seq<Player>, k: nat, i: nat)
    requires NonnegativeHands(ps) && k < |Levels(ps)| && i < |ps|
    ensures ps[i].handCommitted >= Levels(ps)[k] || ps[i].handCommitted <= Below(Levels(ps), k)
    ensures 0 <= Below(Levels(ps), k) < Levels(ps)[k]
  {
    LevelsRise(ps, k);
    if ps[i].handCommitted > 0 {
      BetweenLevels(Levels(ps), k, ps[i].handCommitted);
    }
  }

  lemma ProductNonnegative(a: int, b: int)
    requires a >= 0 && b >= 0
    ensures a * b >= 0
  {
  }

  lemma LayerGrowth(ps: seq<Player>, k: nat)
    requires NonnegativeHands(ps) && k < |Levels(ps)|
    ensures LayerAmount(ps, Levels(ps), k)
            == CapSum(ps, Levels(ps)[k]) - CapSum(ps, Below(Levels(ps), k))
    ensures LayerAmount(ps, Levels(ps), k) >= 0
  {
    var level, below := Levels(ps)[k], Below(Levels(ps), k);
    LevelsRise(ps, k);
    forall j: nat | j < |ps| ensures ps[j].handCommitted >= level || ps[j].handCommitted <= below {
      NothingBetween(ps, k, j);
    }
    LayerSum(ps, below, level);
    ProductNonnegative(level - below, Count(ps, Contributes(level)));
  }

  /** No commitment exceeds the highest level. */
  lemma TopLevel(ps: seq<Player>, i: nat)
    requires NonnegativeHands(ps) && i < |ps|
    ensures 0 <= ps[i].handCommitted <= Below(Levels(ps), |Levels(ps)|)
  {
    var levels := Levels(ps);
    if ps[i].handCommitted > 0 {
      assert ps[i].handCommitted in levels;
      var j :| 0 <= j < |levels| && levels[j] == ps[i].handCommitted;
      assert levels[j] <= levels[|levels| - 1];
    } else if |levels| > 0 {
      assert levels[|levels| - 1] in levels;
    }
  }

  /** Above the highest level nothing is left out. */
  lemma CapAll(ps: seq<Player>)
    requires NonnegativeHands(ps)
    ensures CapSum(ps, Below(Levels(ps), |Levels(ps)|)) == Sum(ps, HandOf)
  {
    var top := Below(Levels(ps), |Levels(ps)|);
    forall i | 0 <= i < |ps| ensures Capped(top)(ps[i]) == HandOf(ps[i]) {
      TopLevel(ps, i);
    }
    SumMatches(ps, Capped(top), ps, HandOf);
  }

  lemma CapNone(ps: seq<Player>)
    requires NonnegativeHands(ps)
    ensures CapSum(ps, 0) == 0
  {
    SumZero(ps, Capped(0));
  }

  lemma CapMonotone(ps: seq<Player>, x: int, y: int)
    requires x <= y
    ensures CapSum(ps, x) <= CapSum(ps, y)
  {
    SumAtMost(ps, Capped(x), ps, Capped(y));
  }

  // ---- Payments layer by layer ----

  /** What the k-th layer pays a player: the refund of an uncontested layer, or a share of a pot. */
  function LayerPays(ps: seq<Player>, levels: seq<int>, k: nat, score: PlayerId -> HandScore, key: PlayerId -> int,
                     id: PlayerId): int
    requires k < |levels|
  {
    if Uncontested(ps, levels[k]) then
      if id in IdsOf(ps, Contributes(levels[k])) then LayerAmount(ps, levels, k) else 0
    else
      PotPays(Pot(LayerAmount(ps, levels, k), IdsOf(ps, EligibleAt(levels[k]))), score, key, id)
  }

  function LayerOf(ps: seq<Player>, levels: seq<int>, score: PlayerId -> HandScore, key: PlayerId -> int,
                   id: PlayerId): nat -> int
  {
    (k: nat) => if k < |levels| then LayerPays(ps, levels, k, score, key, id) else 0
  }

  function Total(f: nat -> int, k: nat): int {
    if k == 0 then 0 else Total(f, k - 1) + f(k - 1)
  }

  function LayersPay(ps: seq<Player>, levels: seq<int>, k: nat, score: PlayerId -> HandScore, key: PlayerId -> int,
                     id: PlayerId): int
  {
    Total(LayerOf(ps, levels, score, key, id), k)
  }

  lemma ContestedLayer(ps: seq<Player>, levels: seq<int>, k: nat, score: PlayerId -> HandScore,
                       key: PlayerId -> int, id: PlayerId)
    requires k < |levels| && !Uncontested(ps, levels[k])
    ensures PotsPay(PotsTo(ps, levels, k + 1), score, key, id)
            == PotsPay(PotsTo(ps, levels, k), score, key, id) + LayerPays(ps, levels, k, score, key, id)
  {
    SumAppend(PotsTo(ps, levels, k),
              Pot(LayerAmount(ps, levels, k), IdsOf(ps, EligibleAt(levels[k]))),
              PaysFrom(score, key, id));
  }

  /** Each further layer adds to refunds and pots what it pays. */
  lemma OneMoreLayer(ps: seq<Player>, levels: seq<int>, k: nat, score: PlayerId -> HandScore, key: PlayerId -> int,
                     id: PlayerId)
    requires k < |levels|
    ensures RefundTo(ps, levels, k + 1, id) + PotsPay(PotsTo(ps, levels, k + 1), score, key, id)
            == RefundTo(ps, levels, k, id) + PotsPay(PotsTo(ps, levels, k), score, key, id)
               + LayerPays(ps, levels, k, score, key, id)
  {
    if !Uncontested(ps, levels[k]) {
      ContestedLayer(ps, levels, k, score, key, id);
    }
  }

  lemma {:induction false} TotalOf(f: nat -> int, g: nat -> int, k: nat)
    requires g(0) == 0 && forall j: nat | j < k :: g(j + 1) == g(j) + f(j)
    ensures g(k) == Total(f, k)
  {
    if k > 0 {
      TotalOf(f, g, k - 1);
      assert g(k - 1 + 1) == g(k - 1) + f(k - 1);
    }
  }

  function RefundsAndPots(ps: seq<Player>, levels: seq<int>, score: PlayerId -> HandScore, key: PlayerId -> int,
                          id: PlayerId): nat -> int
  {
    (k: nat) =>
      if k <= |levels| then RefundTo(ps, levels, k, id) + PotsPay(PotsTo(ps, levels, k), score, key, id) else 0
  }

  lemma GrowsByLayer(ps: seq<Player>, levels: seq<int>, k: nat, score: PlayerId -> HandScore, key: PlayerId -> int,
                     id: PlayerId)
    requires k < |levels|
    ensures RefundsAndPots(ps, levels, score, key, id)(k + 1)
            == RefundsAndPots(ps, levels, score, key, id)(k) + LayerOf(ps, levels, score, key, id)(k)
  {
    OneMoreLayer(ps, levels, k, score, key, id);
  }

  /** Refunds and pots together pay exactly the layers. */
  lemma LayersAreRefundsAndPots(ps: seq<Player>, levels: seq<int>, k: nat, score: PlayerId -> HandScore,
                                key: PlayerId -> int, id: PlayerId)
    requires k <= |levels|
    ensures RefundTo(ps, levels, k, id) + PotsPay(PotsTo(ps, levels, k), score, key, id)
            == LayersPay(ps, levels, k, score, key, id)
  {
    var f, g := LayerOf(ps, levels, score, key, id), RefundsAndPots(ps, levels, score, key, id);
    forall j: nat | j < k ensures g(j + 1) == g(j) + f(j) {
      GrowsByLayer(ps, levels, j, score, key, id);
    }
    TotalOf(f, g, k);
  }

  // ---- Every chip of a layer goes out once ----

  function InList(ids: seq<PlayerId>): Player -> int { (p: Player) => if p.id in ids then 1 else 0 }

  predicate AllPlayers(ps: seq<Player>, ids: seq<PlayerId>) {
    forall id | id in ids :: IsPlayer(ps, id)
  }

  /** As many players are listed as the list is long. */
  lemma {:induction false} ListedCount(ps: seq<Player>, ids: seq<PlayerId>)
    requires UniqueIds(ps) && Distinct(ids) && AllPlayers(ps, ids)
    ensures Sum(ps, InList(ids)) == |ids|
  {
    if |ids| == 0 {
      SumZero(ps, InList(ids));
    } else {
      var n := |ids| - 1;
      assert ids == ids[..n] + [ids[n]];
      assert ids[n] !in ids[..n];
      ListedCount(ps, ids[..n]);
      assert ids[n] in ids;
      var i :| 0 <= i < |ps| && ps[i].id == ids[n];
      SumDiffers(ps, InList(ids[..n]), ps, InList(ids), i);
    }
  }

  lemma {:induction false} SumScaled<T>(s: seq<T>, c: int, f: T -> int, g: T -> int)
    requires forall i | 0 <= i < |s| :: g(s[i]) == c * f(s[i])
    ensures Sum(s, g) == c * Sum(s, f)
  {
    if |s| > 0 {
      var n := |s| - 1;
      assert forall i | 0 <= i < n :: s[..n][i] == s[i];
      SumScaled(s[..n], c, f, g);
      assert c * (Sum(s[..n], f) + f(s[n])) == c * Sum(s[..n], f) + c * f(s[n]);
    }
  }

  function Shares(share: int, ids: seq<PlayerId>): Player -> int {
    (p: Player) => if p.id in ids then share else 0
  }

  function Awards(amount: int, winners: seq<PlayerId>, order: seq<PlayerId>): Player -> int
    requires |winners| > 0 && |order| == |winners|
  {
    (p: Player) => Award(amount, winners, order, p.id)
  }

  lemma DivMod(amount: int, k: nat)
    requires k > 0
    ensures amount == (amount / k) * k + amount % k && 0 <= amount % k < k
  {
  }

  /** Equal shares and odd chips add up to the pot. */
  lemma AwardsAddUp(ps: seq<Player>, amount: int, winners: seq<PlayerId>, order: seq<PlayerId>)
    requires UniqueIds(ps) && |winners| > 0 && |order| == |winners|
    requires Distinct(winners) && Distinct(order)
    requires AllPlayers(ps, winners) && AllPlayers(ps, order)
    ensures Sum(ps, Awards(amount, winners, order)) == amount
  {
    var share := amount / |winners|;
    var odd := order[..amount % |winners|];
    DivMod(amount, |winners|);
    ListedCount(ps, winners);
    ListedCount(ps, odd);
    SumScaled(ps, share, InList(winners), Shares(share, winners));
    SumAdds(ps, Shares(share, winners), ps, InList(odd), ps, Awards(amount, winners, order));
  }

  function LayerPayments(ps: seq<Player>, levels: seq<int>, k: nat, score: PlayerId -> HandScore,
                         key: PlayerId -> int): Player -> int
    requires k < |levels|
  {
    (p: Player) => LayerPays(ps, levels, k, score, key, p.id)
  }

  function LayersPayments(ps: seq<Player>, levels: seq<int>, k: nat, score: PlayerId -> HandScore,
                          key: PlayerId -> int): Player -> int
  {
    (p: Player) => LayersPay(ps, levels, k, score, key, p.id)
  }

  lemma UncontestedPays(ps: seq<Player>, levels: seq<int>, k: nat, score: PlayerId -> HandScore, key: PlayerId -> int)
    requires UniqueIds(ps) && k < |levels| && Uncontested(ps, levels[k])
    ensures Sum(ps, LayerPayments(ps, levels, k, score, key)) == LayerAmount(ps, levels, k)
  {
    var ids := IdsOf(ps, Contributes(levels[k]));
    IdsCounted(ps, Contributes(levels[k]));
    IdsDistinct(ps, Contributes(levels[k]));
    ListedCount(ps, ids);
    SumScaled(ps, LayerAmount(ps, levels, k), InList(ids), LayerPayments(ps, levels, k, score, key));
  }

  lemma ContestedPays(ps: seq<Player>, levels: seq<int>, k: nat, score: PlayerId -> HandScore, key: PlayerId -> int)
    requires UniqueIds(ps) && k < |levels| && !Uncontested(ps, levels[k])
    requires |IdsOf(ps, EligibleAt(levels[k]))| > 0
    ensures Sum(ps, LayerPayments(ps, levels, k, score, key)) == LayerAmount(ps, levels, k)
  {
    var pot := Pot(LayerAmount(ps, levels, k), IdsOf(ps, EligibleAt(levels[k])));
    IdsDistinct(ps, EligibleAt(levels[k]));
    WinnersFacts(pot, score);
    var winners := WinnersOf(pot, score);
    var order := SortBy(winners, key);
    SortByDistinct(winners, key);
    AwardsAddUp(ps, pot.amount, winners, order);
    SumMatches(ps, LayerPayments(ps, levels, k, score, key), ps, Awards(pot.amount, winners, order));
  }

  // ---- Somebody can always be paid ----

  /** A player who covers the table is eligible in every layer. */
  lemma CoveredEligible(ps: seq<Player>, k: nat)
    requires Covered(ps) && k < |Levels(ps)|
    ensures |IdsOf(ps, EligibleAt(Levels(ps)[k]))| > 0
    ensures Uncontested(ps, Levels(ps)[k]) ==>
              forall i | 0 <= i < |ps| && ps[i].id in IdsOf(ps, Contributes(Levels(ps)[k])) ::
                UniqueIds(ps) ==> ps[i].status != Folded
  {
    var level := Levels(ps)[k];
    assert level in Levels(ps);
    var i :| 0 <= i < |ps| && ps[i].handCommitted == level;
    var t :| 0 <= t < |ps| && ps[t].status != Folded
             && forall j | 0 <= j < |ps| :: ps[j].handCommitted <= ps[t].handCommitted;
    assert EligibleAt(level)(ps[t]);
    assert ps[t].id in IdsOf(ps, EligibleAt(level));
    if Uncontested(ps, level) && UniqueIds(ps) {
      CountTwo(ps, Contributes(level));
      assert Contributes(level)(ps[t]);
      forall j | 0 <= j < |ps| && ps[j].id in IdsOf(ps, Contributes(level)) ensures j == t {
        IdsOfAt(ps, Contributes(level), j);
        assert Contributes(level)(ps[j]);
      }
    }
  }

  lemma {:induction false} PotsHaveEligible(ps: seq<Player>, k: nat)
    requires Covered(ps) && k <= |Levels(ps)|
    ensures forall j | 0 <= j < |PotsTo(ps, Levels(ps), k)| :: |PotsTo(ps, Levels(ps), k)[j].eligible| > 0
  {
    if k > 0 {
      PotsHaveEligible(ps, k - 1);
      CoveredEligible(ps, k - 1);
    }
  }

  lemma LayerPaysAll(ps: seq<Player>, k: nat, score: PlayerId -> HandScore, key: PlayerId -> int)
    requires UniqueIds(ps) && Covered(ps) && k < |Levels(ps)|
    ensures Sum(ps, LayerPayments(ps, Levels(ps), k, score, key)) == LayerAmount(ps, Levels(ps), k)
  {
    if Uncontested(ps, Levels(ps)[k]) {
      UncontestedPays(ps, Levels(ps), k, score, key);
    } else {
      CoveredEligible(ps, k);
      ContestedPays(ps, Levels(ps), k, score, key);
    }
  }

  /** The first k layers pay out exactly what all players committed up to the k-th level. */
  lemma {:induction false} LayersPayAll(ps: seq<Player>, k: nat, score: PlayerId -> HandScore, key: PlayerId -> int)
    requires UniqueIds(ps) && NonnegativeHands(ps) && Covered(ps) && k <= |Levels(ps)|
    ensures Sum(ps, LayersPayments(ps, Levels(ps), k, score, key)) == CapSum(ps, Below(Levels(ps), k))
  {
    if k == 0 {
      SumZero(ps, LayersPayments(ps, Levels(ps), 0, score, key));
      CapNone(ps);
    } else {
      LayersPayAll(ps, k - 1, score, key);
      LayerPaysAll(ps, k - 1, score, key);
      LayerGrowth(ps, k - 1);
      SumAdds(ps, LayersPayments(ps, Levels(ps), k - 1, score, key),
              ps, LayerPayments(ps, Levels(ps), k - 1, score, key),
              ps, LayersPayments(ps, Levels(ps), k, score, key));
    }
  }

  // ---- Nobody wins more than they covered ----

  lemma ShareBound(amount: int, k: nat)
    requires amount >= 0 && k > 0
    ensures 0 <= amount / k
    ensures amount / k + (if amount % k > 0 then 1 else 0) <= amount
  {
    var q := amount / k;
    DivMod(amount, k);
    ProductNonnegative(q, k - 1);
    assert q * k == q + q * (k - 1);
  }

  lemma AwardBounded(amount: int, winners: seq<PlayerId>, order: seq<PlayerId>, id: PlayerId)
    requires amount >= 0 && |winners| > 0 && |order| == |winners|
    requires forall x | x in order :: x in winners
    ensures 0 <= Award(amount, winners, order, id) <= amount
    ensures id !in winners ==> Award(amount, winners, order, id) == 0
  {
    ShareBound(amount, |winners|);
    var odd := order[..amount % |winners|];
    assert id in odd ==> id in order && |odd| > 0;
  }

  lemma LayerBounded(ps: seq<Player>, k: nat, score: PlayerId -> HandScore, key: PlayerId -> int, i: nat)
    requires UniqueIds(ps) && NonnegativeHands(ps) && k < |Levels(ps)| && i < |ps|
    ensures var paid := LayerPays(ps, Levels(ps), k, score, key, ps[i].id);
            && 0 <= paid <= LayerAmount(ps, Levels(ps), k)
            && (ps[i].handCommitted < Levels(ps)[k] ==> paid == 0)
  {
    LayerGrowth(ps, k);
    var level := Levels(ps)[k];
    IdsOfAt(ps, Contributes(level), i);
    IdsOfAt(ps, EligibleAt(level), i);
    if !Uncontested(ps, level) {
      var pot := Pot(LayerAmount(ps, Levels(ps), k), IdsOf(ps, EligibleAt(level)));
      var winners := WinnersOf(pot, score);
      if |winners| > 0 {
        if |pot.eligible| > 0 {
          WinnersFacts(pot, score);
        }
        AwardBounded(pot.amount, winners, SortBy(winners, key), ps[i].id);
      }
    }
  }

  lemma CapStep(ps: seq<Player>, k: nat, h: int, paid: int)
    requires NonnegativeHands(ps) && k < |Levels(ps)| && 0 <= h
    requires 0 <= paid <= LayerAmount(ps, Levels(ps), k)
    requires h < Levels(ps)[k] ==> paid == 0
    ensures 0 <= paid <= CapBound(ps, h)(k + 1) - CapBound(ps, h)(k)
  {
    LevelsRise(ps, k);
    if h < Levels(ps)[k] {
      CapMonotone(ps, Min(h, Below(Levels(ps), k)), h);
    } else {
      LayerGrowth(ps, k);
    }
  }

  /** A total whose every step stays within the growth of a bound stays below the bound. */
  lemma {:induction false} TotalBelow(f: nat -> int, bound: nat -> int, k: nat)
    requires 0 <= bound(0)
    requires forall j: nat | j < k :: 0 <= f(j) <= bound(j + 1) - bound(j)
    ensures 0 <= Total(f, k) <= bound(k)
  {
    if k > 0 {
      TotalBelow(f, bound, k - 1);
      assert f(k - 1) <= bound(k - 1 + 1) - bound(k - 1);
    }
  }

  /** The commitments below the k-th level, capped at h. */
  function CapBound(ps: seq<Player>, h: int): nat -> int {
    (k: nat) => if k <= |Levels(ps)| then CapSum(ps, Min(h, Below(Levels(ps), k))) else 0
  }

  lemma LayerWithinCap(ps: seq<Player>, score: PlayerId -> HandScore, key: PlayerId -> int, i: nat, j: nat)
    requires UniqueIds(ps) && NonnegativeHands(ps) && i < |ps| && j < |Levels(ps)|
    ensures var f := LayerOf(ps, Levels(ps), score, key, ps[i].id);
            var bound := CapBound(ps, ps[i].handCommitted);
            0 <= f(j) <= bound(j + 1) - bound(j)
  {
    LayerBounded(ps, j, score, key, i);
    CapStep(ps, j, ps[i].handCommitted, LayerPays(ps, Levels(ps), j, score, key, ps[i].id));
  }

  lemma LayersBounded(ps: seq<Player>, score: PlayerId -> HandScore, key: PlayerId -> int, i: nat)
    requires UniqueIds(ps) && NonnegativeHands(ps) && i < |ps|
    ensures 0 <= LayersPay(ps, Levels(ps), |Levels(ps)|, score, key, ps[i].id) <= CapSum(ps, ps[i].handCommitted)
  {
    var n := |Levels(ps)|;
    var f := LayerOf(ps, Levels(ps), score, key, ps[i].id);
    var bound := CapBound(ps, ps[i].handCommitted);
    assert bound(0) == 0 by {
      CapNone(ps);
    }
    forall j: nat | j < n ensures 0 <= f(j) <= bound(j + 1) - bound(j) {
      LayerWithinCap(ps, score, key, i, j);
    }
    TotalBelow(f, bound, n);
    TopLevel(ps, i);
    assert bound(n) == CapSum(ps, ps[i].handCommitted);
  }

  // ---- The sole contender takes exactly what the layers would give ----

  lemma OnlyOne(ids: seq<PlayerId>, id: PlayerId)
    requires Distinct(ids) && |ids| > 0 && forall x | x in ids :: x == id
    ensures ids == [id]
  {
    assert forall k | 0 <= k < |ids| :: ids[k] in ids;
    assert forall k | 0 <= k < |ids| :: ids[k] == id;
    assert ids[0] == ids[|ids| - 1];
  }

  lemma SoleEligible(ps: seq<Player>, k: nat, c: nat)
    requires UniqueIds(ps) && Covered(ps) && k < |Levels(ps)|
    requires c < |ps| && forall j | 0 <= j < |ps| :: IsContender(ps[j]) <==> j == c
    ensures IdsOf(ps, EligibleAt(Levels(ps)[k])) == [ps[c].id]
    ensures Uncontested(ps, Levels(ps)[k]) ==> IdsOf(ps, Contributes(Levels(ps)[k])) == [ps[c].id]
  {
    var level := Levels(ps)[k];
    CoveredEligible(ps, k);
    var ids := IdsOf(ps, EligibleAt(level));
    IdsDistinct(ps, EligibleAt(level));
    forall x | x in ids ensures x == ps[c].id {
      var j :| 0 <= j < |ps| && ps[j].id == x && EligibleAt(level)(ps[j]);
      assert IsContender(ps[j]);
    }
    OnlyOne(ids, ps[c].id);
    if Uncontested(ps, level) {
      var who := IdsOf(ps, Contributes(level));
      IdsCounted(ps, Contributes(level));
      IdsOfAt(ps, EligibleAt(level), c);
      IdsOfAt(ps, Contributes(level), c);
      assert ps[c].id in ids;
      assert ps[c].id in who && |who| == 1;
    }
  }

  lemma SoleLayer(ps: seq<Player>, k: nat, c: nat, score: PlayerId -> HandScore, key: PlayerId -> int, id: PlayerId)
    requires UniqueIds(ps) && Covered(ps) && k < |Levels(ps)|
    requires c < |ps| && forall j | 0 <= j < |ps| :: IsContender(ps[j]) <==> j == c
    ensures LayerPays(ps, Levels(ps), k, score, key, id)
            == if id == ps[c].id then LayerAmount(ps, Levels(ps), k) else 0
  {
    SoleEligible(ps, k, c);
    if !Uncontested(ps, Levels(ps)[k]) {
      var winners := [ps[c].id];
      var order := SortBy(winners, key);
      assert order[0] in order;
    }
  }

  lemma {:induction false} TotalIs(ps: seq<Player>, f: nat -> int, k: nat)
    requires NonnegativeHands(ps) && k <= |Levels(ps)|
    requires forall j: nat | j < k :: f(j) == LayerAmount(ps, Levels(ps), j)
    ensures Total(f, k) == CapSum(ps, Below(Levels(ps), k))
  {
    if k == 0 {
      CapNone(ps);
    } else {
      TotalIs(ps, f, k - 1);
      LayerGrowth(ps, k - 1);
    }
  }

  lemma {:induction false} TotalNothing(f: nat -> int, k: nat)
    requires forall j: nat | j < k :: f(j) == 0
    ensures Total(f, k) == 0
  {
    if k > 0 {
      TotalNothing(f, k - 1);
    }
  }

  lemma SoleLayers(ps: seq<Player>, c: nat, score: PlayerId -> HandScore, key: PlayerId -> int, id: PlayerId)
    requires UniqueIds(ps) && NonnegativeHands(ps) && Covered(ps)
    requires c < |ps| && forall j | 0 <= j < |ps| :: IsContender(ps[j]) <==> j == c
    ensures LayersPay(ps, Levels(ps), |Levels(ps)|, score, key, id)
            == if id == ps[c].id then Sum(ps, HandOf) else 0
  {
    var f := LayerOf(ps, Levels(ps), score, key, id);
    forall j: nat | j < |Levels(ps)|
      ensures f(j) == if id == ps[c].id then LayerAmount(ps, Levels(ps), j) else 0
    {
      SoleLayer(ps, j, c, score, key, id);
    }
    if id == ps[c].id {
      TotalIs(ps, f, |Levels(ps)|);
      CapAll(ps);
    } else {
      TotalNothing(f, |Levels(ps)|);
    }
  }
}

/** Which hand wins: the order of the scores stated on the cards, category by category and kicker by kicker. */
module HandOrder {
  import opened Cards
  import opened Categories
  import opened Evaluator
  import Fairness
  import opened HandRanking
  import opened Pots
  import opened Sequences
  import opened Showdown
  import opened Table
  import opened Wrappers

  // ---- The comparison ----

  /** The vectors agree before position k, where a is larger; a missing entry counts as zero. */
  predicate LeadsAt(a: seq<int>, b: seq<int>, k: nat) {
    && At(a, k) > At(b, k)
    && forall j: nat | j < k :: At(a, j) == At(b, j)
  }

  ghost predicate Leads(a: seq<int>, b: seq<int>) { exists k: nat :: LeadsAt(a, b, k) }

  lemma {:induction false} LeadsFrom(a: seq<int>, b: seq<int>, i: nat, n: nat)
    requires forall j: nat | j < i :: At(a, j) == At(b, j)
    requires |a| <= n && |b| <= n
    ensures CompareFrom(a, b, i, n) > 0 <==> Leads(a, b)
    decreases n - i
  {
    if i < n && At(a, i) == At(b, i) {
      LeadsFrom(a, b, i + 1, n);
    } else if i < n {
      if At(a, i) > At(b, i) {
        assert LeadsAt(a, b, i);
      }
    }
  }

  /** A hand compares as the better one exactly when its vector is larger at the first place where the two differ. */
  lemma CompareMeaning(a: HandScore, b: HandScore)
    ensures Compare(a, b) > 0 <==> Leads(a.value, b.value)
    ensures Compare(a, b) < 0 <==> Leads(b.value, a.value)
    ensures -1 <= Compare(a, b) <= 1
  {
    LeadsFrom(a.value, b.value, 0, Longer(a.value, b.value));
    LeadsFrom(b.value, a.value, 0, Longer(b.value, a.value));
    CompareTotal(a, b);
    CompareUnit(a.value, b.value, 0, Longer(a.value, b.value));
  }

  lemma {:induction false} CompareUnit(a: seq<int>, b: seq<int>, i: nat, n: nat)
    ensures -1 <= CompareFrom(a, b, i, n) <= 1
    decreases n - i
  {
    if i < n {
      CompareUnit(a, b, i + 1, n);
    }
  }

  // ---- Categories ----

  /** The ranking of poker hands, from the strongest category down. */
  predicate Outranks(c: Category, d: Category) {
    match c
    case StraightFlush => d != StraightFlush
    case FourKind => d !in {StraightFlush, FourKind}
    case FullHouse => d !in {StraightFlush, FourKind, FullHouse}
    case Flush => d in {Straight, ThreeKind, TwoPair, Pair, HighCard}
    case Straight => d in {ThreeKind, TwoPair, Pair, HighCard}
    case ThreeKind => d in {TwoPair, Pair, HighCard}
    case TwoPair => d in {Pair, HighCard}
    case Pair => d == HighCard
    case HighCard => false
  }

  /** The values after the category: the ranks that decide between hands of one category, as NamesKickers says. */
  function KickersOf(cards: seq<Card>): seq<int> { Kickers(EvaluateFive(cards)) }

  function Kickers(r: HandScore): seq<int> { if |r.value| == 0 then [] else r.value[1..] }

  lemma KickersNamed(cards: seq<Card>)
    ensures EvaluateFive(cards).category == Category5(cards)
    ensures NamesKickers(cards, Category5(cards), KickersOf(cards))
    ensures EvaluateFive(cards).value == [CategoryIndex(Category5(cards))] + KickersOf(cards)
  {
    CategoryMeaning(cards);
    NamesParts(cards, EvaluateFive(cards));
  }

  lemma NamesParts(cards: seq<Card>, r: HandScore)
    requires Names(cards, r)
    ensures r.value == [CategoryIndex(r.category)] + Kickers(r)
    ensures r.category == Category5(cards) && NamesKickers(cards, Category5(cards), Kickers(r))
  {
  }

  /** A hand beats another by its category, or in the same category by the first rank in which they differ. */
  ghost predicate Beats(x: seq<Card>, y: seq<Card>) {
    || Outranks(Category5(x), Category5(y))
    || (Category5(x) == Category5(y) && Leads(KickersOf(x), KickersOf(y)))
  }

  lemma LeadsBehind(c: int, a: seq<int>, b: seq<int>)
    ensures Leads([c] + a, [c] + b) <==> Leads(a, b)
  {
    if Leads(a, b) {
      var k: nat :| LeadsAt(a, b, k);
      forall j: nat | j < k + 1 ensures At([c] + a, j) == At([c] + b, j) {
        if j > 0 {
          BehindAt(c, a, b, j - 1);
        }
      }
      BehindAt(c, a, b, k);
      assert LeadsAt([c] + a, [c] + b, k + 1);
    }
    if Leads([c] + a, [c] + b) {
      var k: nat :| LeadsAt([c] + a, [c] + b, k);
      BehindAt(c, a, b, k - 1);
      forall j: nat | j < k - 1 ensures At(a, j) == At(b, j) {
        BehindAt(c, a, b, j);
        assert At([c] + a, j + 1) == At([c] + b, j + 1);
      }
      assert LeadsAt(a, b, k - 1);
    }
  }

  lemma BehindAt(c: int, a: seq<int>, b: seq<int>, j: nat)
    ensures At([c] + a, j + 1) == At(a, j) && At([c] + b, j + 1) == At(b, j)
  {
  }

  lemma CategoriesDiffer(c: Category, d: Category, a: seq<int>, b: seq<int>)
    requires c != d
    ensures Leads([CategoryIndex(c)] + a, [CategoryIndex(d)] + b) <==> Outranks(c, d)
  {
    var v, w := [CategoryIndex(c)] + a, [CategoryIndex(d)] + b;
    assert At(v, 0) == CategoryIndex(c) && At(w, 0) == CategoryIndex(d);
    if Leads(v, w) {
      var k: nat :| LeadsAt(v, w, k);
      assert k == 0;
    } else if Outranks(c, d) {
      assert LeadsAt(v, w, 0);
    }
  }

  /** The evaluator ranks hands as poker does: the stronger category first, and within a category the higher rank at
      the first difference. */
  lemma RankedAsPoker(x: seq<Card>, y: seq<Card>)
    ensures Compare(EvaluateFive(x), EvaluateFive(y)) > 0 <==> Beats(x, y)
  {
    KickersNamed(x);
    KickersNamed(y);
    ScoresRanked(EvaluateFive(x), EvaluateFive(y), Category5(x), Category5(y), KickersOf(x), KickersOf(y));
  }

  lemma ScoresRanked(r: HandScore, t: HandScore, c: Category, d: Category, a: seq<int>, b: seq<int>)
    requires r.value == [CategoryIndex(c)] + a && t.value == [CategoryIndex(d)] + b
    ensures Compare(r, t) > 0 <==> Outranks(c, d) || (c == d && Leads(a, b))
  {
    CompareMeaning(r, t);
    if c == d {
      LeadsBehind(CategoryIndex(c), a, b);
    } else {
      CategoriesDiffer(c, d, a, b);
    }
  }

  // ---- Seven cards and pots ----

  /** Five of the cards that no other five of them beat. */
  ghost predicate BestFive(h: seq<Card>, cards: seq<Card>) {
    && FiveOf(h, cards)
    && forall g: seq<Card> | FiveOf(g, cards) :: !Beats(g, h)
  }

  /** The evaluator's value of seven cards is the score of five that no other five of them beat. */
  lemma SevenIsBestFive(cards: seq<Card>) returns (h: seq<Card>)
    requires |cards| == 7
    ensures BestFive(h, cards) && BestOfSeven(cards) == EvaluateFive(h)
  {
    BestOfSevenIsBest(cards);
    h :| FiveOf(h, cards) && BestOfSeven(cards) == EvaluateFive(h);
    forall g: seq<Card> | FiveOf(g, cards) ensures !Beats(g, h) {
      RankedAsPoker(g, h);
      CompareTotal(EvaluateFive(h), EvaluateFive(g));
    }
  }

  function SevenOf(s: State, id: PlayerId): seq<Card>
    requires Showable(s, id)
  {
    s.holeCards[id] + s.board
  }

  /** Some five of a player's cards are beaten by no five of the other's. */
  ghost predicate HoldsUp(cards: seq<Card>, others: seq<Card>) {
    exists h: seq<Card> :: FiveOf(h, cards) && forall g: seq<Card> | FiveOf(g, others) :: !Beats(g, h)
  }

  lemma SevenCompared(cards: seq<Card>, others: seq<Card>)
    requires |cards| == |others| == 7
    ensures Compare(BestOfSeven(cards), BestOfSeven(others)) >= 0 <==> HoldsUp(cards, others)
  {
    var x := SevenIsBestFive(cards);
    var y := SevenIsBestFive(others);
    BestOfSevenIsBest(cards);
    BestOfSevenIsBest(others);
    CompareTotal(EvaluateFive(x), EvaluateFive(y));
    if Compare(EvaluateFive(x), EvaluateFive(y)) >= 0 {
      forall g: seq<Card> | FiveOf(g, others) ensures !Beats(g, x) {
        RankedAsPoker(g, x);
        CompareTransitive(EvaluateFive(x), EvaluateFive(y), EvaluateFive(g));
        CompareTotal(EvaluateFive(x), EvaluateFive(g));
      }
    }
    if HoldsUp(cards, others) {
      var h: seq<Card> :| FiveOf(h, cards) && forall g: seq<Card> | FiveOf(g, others) :: !Beats(g, h);
      RankedAsPoker(y, h);
      CompareTotal(EvaluateFive(y), EvaluateFive(h));
      CompareTransitive(EvaluateFive(x), EvaluateFive(h), EvaluateFive(y));
    }
  }

  /** At a showdown the winners of a contested pot are exactly the eligible players with five cards that no five cards
      of any eligible player beat. */
  lemma WinnersHoldUp(s: State, pot: Pot, id: PlayerId)
    requires |pot.eligible| > 1 && forall other | other in pot.eligible :: Showable(s, other)
    ensures id in WinnersOf(pot, ShowdownScore(s)) <==>
            id in pot.eligible
            && forall other | other in pot.eligible :: HoldsUp(SevenOf(s, id), SevenOf(s, other))
  {
    Fairness.WinnersAreBest(pot, ShowdownScore(s), id);
    if id in pot.eligible {
      forall other | other in pot.eligible
        ensures Compare(ShowdownScore(s)(id), ShowdownScore(s)(other)) >= 0
                <==> HoldsUp(SevenOf(s, id), SevenOf(s, other))
      {
        SevenCompared(SevenOf(s, id), SevenOf(s, other));
      }
    }
  }
}

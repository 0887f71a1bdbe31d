/** What each hand category requires of the five cards, said without the evaluator's groups. */
module Categories {
  import opened Cards
  import opened Evaluator
  import opened HandRanking
  import opened Sequences
  import opened Wrappers

  function Times(cards: seq<Card>, r: int): nat { multiset(Ranks(cards))[r] }

  predicate Occurs(cards: seq<Card>, count: nat) {
    exists c :: c in cards && Times(cards, c.rank) == count
  }

  predicate TwoPairs(cards: seq<Card>) {
    exists c, d :: c in cards && d in cards && c.rank != d.rank && Times(cards, c.rank) == Times(cards, d.rank) == 2
  }

  /** A rank is held, the ace also counting as one. */
  predicate Held(cards: seq<Card>, r: int) {
    exists c :: c in cards && (c.rank == r || (c.rank == 14 && r == 1))
  }

  predicate StraightTo(cards: seq<Card>, high: int) {
    forall k | high - 5 < k <= high :: Held(cards, k)
  }

  lemma SortedCounts(cards: seq<Card>, count: nat)
    ensures var groups := Groups(SortDescending(Ranks(cards)));
            && (FindCount(groups, count).Some? && count > 0 ==>
                  Occurs(cards, count) && Times(cards, FindCount(groups, count).value) == count
                  && forall c | c in cards && Times(cards, c.rank) == count :: c.rank <= FindCount(groups, count).value)
            && (FindCount(groups, count).None? ==> !Occurs(cards, count))
  {
    var sorted := SortDescending(Ranks(cards));
    var groups := Groups(sorted);
    forall c | c in cards ensures Group(c.rank, Times(cards, c.rank)) in groups {
      CardRankIn(cards, c);
      assert c.rank as int in multiset(sorted);
    }
    var found := FindCount(groups, count);
    if found.Some? && count > 0 {
      assert Group(found.value, count) in groups;
      assert found.value in multiset(Ranks(cards));
      var i :| 0 <= i < |cards| && Ranks(cards)[i] == found.value;
      assert cards[i] in cards;
    }
  }

  lemma CardRankIn(cards: seq<Card>, c: Card)
    requires c in cards
    ensures c.rank in Ranks(cards) && Times(cards, c.rank) > 0
  {
    var i :| 0 <= i < |cards| && cards[i] == c;
    assert Ranks(cards)[i] == c.rank;
    assert c.rank as int in multiset(Ranks(cards));
  }

  /** A rank that heads a group belongs to one of the cards. */
  lemma GroupHasCard(cards: seq<Card>, rank: int, count: nat) returns (c: Card)
    requires Group(rank, count) in Groups(SortDescending(Ranks(cards)))
    ensures c in cards && c.rank == rank && Times(cards, rank) == count
  {
    assert rank in multiset(SortDescending(Ranks(cards)));
    assert rank in Ranks(cards);
    var i :| 0 <= i < |cards| && Ranks(cards)[i] == rank;
    c := cards[i];
  }

  lemma CardHasGroup(cards: seq<Card>, c: Card)
    requires c in cards
    ensures Group(c.rank, Times(cards, c.rank)) in Groups(SortDescending(Ranks(cards)))
  {
    CardRankIn(cards, c);
    assert c.rank as int in multiset(SortDescending(Ranks(cards)));
  }

  lemma PairsFound(cards: seq<Card>)
    requires |RanksWithCount(Groups(SortDescending(Ranks(cards))), 2)| >= 2
    ensures TwoPairs(cards)
  {
    var pairs := RanksWithCount(Groups(SortDescending(Ranks(cards))), 2);
    assert pairs[0] in pairs && pairs[1] in pairs && pairs[0] > pairs[1];
    var c := GroupHasCard(cards, pairs[0], 2);
    var d := GroupHasCard(cards, pairs[1], 2);
  }

  lemma TwoInside(s: seq<int>, x: int, y: int)
    requires x in s && y in s && x != y
    ensures |s| >= 2
  {
  }

  lemma PairsCounted(cards: seq<Card>)
    ensures |RanksWithCount(Groups(SortDescending(Ranks(cards))), 2)| >= 2 <==> TwoPairs(cards)
  {
    var pairs := RanksWithCount(Groups(SortDescending(Ranks(cards))), 2);
    if |pairs| >= 2 {
      PairsFound(cards);
    }
    if TwoPairs(cards) {
      var c, d :| c in cards && d in cards && c.rank != d.rank && Times(cards, c.rank) == Times(cards, d.rank) == 2;
      CardHasGroup(cards, c);
      CardHasGroup(cards, d);
      TwoInside(pairs, c.rank, d.rank);
    }
  }

  // ---- Straights ----

  /** Strictly decreasing. */
  predicate Strict(u: seq<int>) {
    forall i, j | 0 <= i < j < |u| :: u[i] > u[j]
  }

  lemma {:induction false} DistinctSortedIsStrict(s: seq<int>, u: seq<int>)
    requires Distinct(s) && Descending(u) && multiset(u) == multiset(s)
    ensures Strict(u)
  {
    forall i, j | 0 <= i < j < |u| ensures u[i] > u[j] {
      if u[i] == u[j] {
        assert u == u[..i] + ([u[i]] + u[i + 1..j] + ([u[j]] + u[j + 1..]));
        assert multiset(u)[u[i]] >= 2;
        AtMostOnce(s, u[i]);
      }
    }
  }

  lemma {:induction false} AtMostOnce(s: seq<int>, x: int)
    requires Distinct(s)
    ensures multiset(s)[x] <= 1
  {
    if |s| > 0 {
      HeadBag(s);
      AtMostOnce(s[1..], x);
      if s[0] == x {
        assert x !in s[1..];
        assert x !in multiset(s[1..]);
      }
    }
  }

  lemma RanksOfCards(cards: seq<Card>, r: int)
    ensures r in Ranks(cards) <==> exists c :: c in cards && c.rank == r
  {
    if r in Ranks(cards) {
      var i :| 0 <= i < |cards| && Ranks(cards)[i] == r;
      assert cards[i] in cards;
    }
    if c :| c in cards && c.rank == r {
      CardRankIn(cards, c);
    }
  }

  lemma SortedMembers(s: seq<int>, r: int)
    ensures r in SortDescending(s) <==> r in s
  {
    assert r in SortDescending(s) <==> r in multiset(SortDescending(s));
    assert r in s <==> r in multiset(s);
  }

  /** The sorted distinct ranks hold exactly the ranks of the cards. */
  lemma DistinctRanks(cards: seq<Card>)
    ensures var u := SortDescending(Unique(SortDescending(Ranks(cards))));
            Strict(u) && forall r :: r in u <==> exists c :: c in cards && c.rank == r
  {
    var s := Unique(SortDescending(Ranks(cards)));
    DistinctSortedIsStrict(s, SortDescending(s));
    forall r ensures r in SortDescending(s) <==> exists c :: c in cards && c.rank == r {
      SortedMembers(s, r);
      SortedMembers(Ranks(cards), r);
      RanksOfCards(cards, r);
    }
  }

  lemma LadderHolds(cards: seq<Card>)
    ensures Strict(Ladder(SortDescending(Ranks(cards))))
    ensures forall r :: r in Ladder(SortDescending(Ranks(cards))) <==> Held(cards, r)
  {
    var u := SortDescending(Unique(SortDescending(Ranks(cards))));
    DistinctRanks(cards);
    forall i | 0 <= i < |u| ensures u[i] >= 2 {
      assert u[i] in u;
    }
    LadderFrom(cards, u, Ladder(SortDescending(Ranks(cards))));
  }

  lemma LadderFrom(cards: seq<Card>, u: seq<int>, ladder: seq<int>)
    requires Strict(u) && forall i | 0 <= i < |u| :: u[i] >= 2
    requires forall r :: r in u <==> exists c :: c in cards && c.rank == r
    requires ladder == if 14 in u then u + [1] else u
    ensures Strict(ladder)
    ensures forall r :: r in ladder <==> Held(cards, r)
  {
    forall r ensures r in ladder <==> Held(cards, r) {
      assert r in ladder <==> r in u || (14 in u && r == 1);
    }
  }

  /** In a strictly decreasing list, a value one below its predecessor's stands right after it. */
  lemma NextBelow(u: seq<int>, i: nat, x: int)
    requires Strict(u) && i < |u| && u[i] == x && x - 1 in u
    ensures i + 1 < |u| && u[i + 1] == x - 1
  {
    var j :| 0 <= j < |u| && u[j] == x - 1;
    assert j > i;
  }

  lemma RunFromValues(u: seq<int>, i: nat)
    requires Strict(u) && i < |u|
    requires forall k | u[i] - 5 < k <= u[i] :: k in u
    ensures RunAt(u, i)
  {
    var h := u[i];
    NextBelow(u, i, h);
    NextBelow(u, i + 1, h - 1);
    NextBelow(u, i + 2, h - 2);
    NextBelow(u, i + 3, h - 3);
  }

  lemma {:induction false} StraightFromMeaning(u: seq<int>, index: nat)
    requires Strict(u)
    ensures match StraightFrom(u, index)
            case Some(h) => (forall k | h - 5 < k <= h :: k in u)
                            && forall i | index <= i < |u| && u[i] > h :: !RunAt(u, i)
            case None => forall i | index <= i < |u| :: !RunAt(u, i)
    decreases |u| - index
  {
    if index + 5 <= |u| {
      if RunAt(u, index) {
        forall k | u[index] - 5 < k <= u[index] ensures k in u {
          assert u[index + (u[index] - k)] == k;
        }
      } else {
        StraightFromMeaning(u, index + 1);
      }
    }
  }

  /** The straight found is the highest there is, and none is found only when there is none. */
  lemma StraightMeaning(cards: seq<Card>)
    ensures match StraightTop(SortDescending(Ranks(cards)))
            case Some(h) => StraightTo(cards, h) && forall g | g > h :: !StraightTo(cards, g)
            case None => forall g :: !StraightTo(cards, g)
  {
    var u := Ladder(SortDescending(Ranks(cards)));
    LadderHolds(cards);
    StraightFromMeaning(u, 0);
    forall g | StraightTo(cards, g) ensures exists i :: 0 <= i < |u| && u[i] == g && RunAt(u, i) {
      assert Held(cards, g);
      var i :| 0 <= i < |u| && u[i] == g;
      forall k | u[i] - 5 < k <= u[i] ensures k in u {
        assert Held(cards, k);
      }
      RunFromValues(u, i);
    }
  }

  ghost predicate HasStraight(cards: seq<Card>) { exists h :: StraightTo(cards, h) }

  /** The category a hand falls into, strongest first. */
  ghost function Category5(cards: seq<Card>): Category {
    if Suited(cards) && HasStraight(cards) then StraightFlush
    else if Occurs(cards, 4) then FourKind
    else if Occurs(cards, 3) && Occurs(cards, 2) then FullHouse
    else if Suited(cards) then Flush
    else if HasStraight(cards) then Straight
    else if Occurs(cards, 3) then ThreeKind
    else if TwoPairs(cards) then TwoPair
    else if Occurs(cards, 2) then Pair
    else HighCard
  }

  /** The shape the evaluator classifies says about the cards what it should. */
  ghost predicate Reads(cards: seq<Card>, s: Shape) {
    s.flush == Suited(cards) && ReadsGroups(cards, s) && ReadsLists(cards, s) && ReadsStraight(cards, s)
  }

  ghost predicate ReadsGroups(cards: seq<Card>, s: Shape) {
    && ReadsCount(cards, s.four, 4) && ReadsCount(cards, s.three, 3)
    && ReadsCount(cards, s.pair, 2) && ReadsCount(cards, s.single, 1)
  }

  ghost predicate ReadsLists(cards: seq<Card>, s: Shape) {
    && ListsRanks(cards, s.pairs, 2) && ListsRanks(cards, s.singles, 1) && AllRanks(cards, s.ranks)
    && (|s.pairs| >= 2 <==> TwoPairs(cards))
  }

  ghost predicate ReadsStraight(cards: seq<Card>, s: Shape) {
    && (s.straight.Some? <==> HasStraight(cards))
    && (s.straight.Some? ==> HighestStraight(cards, s.straight.value))
  }

  predicate ReadsCount(cards: seq<Card>, found: Option<int>, count: nat) {
    && (found.Some? <==> Occurs(cards, count))
    && (found.Some? ==> HighestWith(cards, found.value, count))
  }

  /** The highest rank that occurs exactly this often. */
  predicate HighestWith(cards: seq<Card>, rank: int, count: nat) {
    && Times(cards, rank) == count
    && forall c | c in cards && Times(cards, c.rank) == count :: c.rank <= rank
  }

  /** The ranks that occur exactly this often, each once, highest first. */
  predicate ListsRanks(cards: seq<Card>, ranks: seq<int>, count: nat) {
    && (forall i, j | 0 <= i < j < |ranks| :: ranks[i] > ranks[j])
    && (forall x | x in ranks :: exists c :: c in cards && c.rank == x && Times(cards, x) == count)
    && (forall c | c in cards && Times(cards, c.rank) == count :: c.rank as int in ranks)
  }

  /** The highest rank that occurs exactly this often, or zero when none does. */
  predicate HighestOrZero(cards: seq<Card>, rank: int, count: nat) {
    if Occurs(cards, count) then HighestWith(cards, rank, count) else rank == 0
  }

  /** All ranks of the hand, highest first. */
  predicate AllRanks(cards: seq<Card>, ranks: seq<int>) {
    Descending(ranks) && multiset(ranks) == multiset(Ranks(cards))
  }

  ghost predicate HighestStraight(cards: seq<Card>, high: int) {
    && StraightTo(cards, high)
    && forall g | g > high :: !StraightTo(cards, g)
  }

  lemma CountReads(cards: seq<Card>, count: nat)
    requires count > 0
    ensures ReadsCount(cards, FindCount(Groups(SortDescending(Ranks(cards))), count), count)
  {
    SortedCounts(cards, count);
    var found := FindCount(Groups(SortDescending(Ranks(cards))), count);
    if Occurs(cards, count) {
      assert found.Some?;
    }
  }

  lemma RanksRead(cards: seq<Card>, count: nat)
    requires count > 0
    ensures ListsRanks(cards, RanksWithCount(Groups(SortDescending(Ranks(cards))), count), count)
  {
    var sorted := SortDescending(Ranks(cards));
    var groups := Groups(sorted);
    var ranks := RanksWithCount(groups, count);
    forall x | x in ranks ensures exists c :: c in cards && c.rank == x && Times(cards, x) == count {
      assert Group(x, count) in groups;
      var c := GroupHasCard(cards, x, count);
    }
    forall c | c in cards && Times(cards, c.rank) == count ensures c.rank as int in ranks {
      CardHasGroup(cards, c);
    }
  }

  lemma ShapeGroups(cards: seq<Card>)
    ensures ReadsGroups(cards, ShapeOf(SortDescending(Ranks(cards)), Suited(cards)))
  {
    CountReads(cards, 4);
    CountReads(cards, 3);
    CountReads(cards, 2);
    CountReads(cards, 1);
  }

  lemma ShapeLists(cards: seq<Card>)
    ensures ReadsLists(cards, ShapeOf(SortDescending(Ranks(cards)), Suited(cards)))
  {
    RanksRead(cards, 2);
    RanksRead(cards, 1);
    PairsCounted(cards);
  }

  lemma ShapeReads(cards: seq<Card>)
    ensures Reads(cards, ShapeOf(SortDescending(Ranks(cards)), Suited(cards)))
  {
    ShapeGroups(cards);
    ShapeLists(cards);
    StraightMeaning(cards);
  }

  /** The score names its category and lists, in order, every rank that decides between hands of the category: groups
      first, then the ranks beside them. */
  ghost predicate Names(cards: seq<Card>, r: HandScore) {
    && r.category == Category5(cards)
    && |r.value| > 0 && r.value[0] == CategoryIndex(r.category)
    && NamesKickers(cards, r.category, r.value[1..])
  }

  ghost predicate NamesKickers(cards: seq<Card>, category: Category, kickers: seq<int>) {
    match category
    case StraightFlush => |kickers| == 1 && HighestStraight(cards, kickers[0])
    case Straight => |kickers| == 1 && HighestStraight(cards, kickers[0])
    case FourKind => |kickers| == 2 && HighestWith(cards, kickers[0], 4) && HighestOrZero(cards, kickers[1], 1)
    case FullHouse => |kickers| == 2 && HighestWith(cards, kickers[0], 3) && HighestWith(cards, kickers[1], 2)
    case Flush => AllRanks(cards, kickers)
    case HighCard => AllRanks(cards, kickers)
    case ThreeKind => |kickers| > 0 && HighestWith(cards, kickers[0], 3) && ListsRanks(cards, kickers[1..], 1)
    case Pair => |kickers| > 0 && HighestWith(cards, kickers[0], 2) && ListsRanks(cards, kickers[1..], 1)
    case TwoPair =>
      && |kickers| == 3 && HighestOrZero(cards, kickers[2], 1)
      && exists pairs :: ListsRanks(cards, pairs, 2) && |pairs| >= 2 && kickers[..2] == pairs[..2]
  }

  lemma ReadsCategory(cards: seq<Card>, s: Shape)
    requires Reads(cards, s)
    ensures Classify(s).category == Category5(cards)
  {
  }

  lemma ScoreParts(category: Category, kickers: seq<int>)
    ensures var r := Score(category, kickers);
            r.category == category && r.value[0] == CategoryIndex(category) && r.value[1..] == kickers
  {
  }

  /** Two pair in a shape: the two highest pairs and the rank beside them. */
  lemma TwoPairNames(cards: seq<Card>, s: Shape, kickers: seq<int>)
    requires ListsRanks(cards, s.pairs, 2) && |s.pairs| >= 2 && ReadsCount(cards, s.single, 1)
    requires kickers == [s.pairs[0], s.pairs[1], OrZero(s.single)]
    ensures NamesKickers(cards, TwoPair, kickers)
  {
    assert kickers[..2] == s.pairs[..2];
  }

  lemma HeadNames(cards: seq<Card>, rank: int, count: nat, singles: seq<int>, category: Category)
    requires HighestWith(cards, rank, count) && ListsRanks(cards, singles, 1)
    requires (category == ThreeKind && count == 3) || (category == Pair && count == 2)
    ensures NamesKickers(cards, category, [rank] + singles)
  {
    assert ([rank] + singles)[1..] == singles;
  }

  lemma ReadsNames(cards: seq<Card>, s: Shape)
    requires Reads(cards, s)
    ensures Names(cards, Classify(s))
  {
    ReadsCategory(cards, s);
    var category := Classify(s).category;
    if category == ThreeKind {
      HeadNames(cards, s.three.value, 3, s.singles, ThreeKind);
      ScoreParts(ThreeKind, [s.three.value] + s.singles);
    } else if category == Pair {
      HeadNames(cards, s.pair.value, 2, s.singles, Pair);
      ScoreParts(Pair, [s.pair.value] + s.singles);
    } else if category == TwoPair {
      TwoPairNames(cards, s, [s.pairs[0], s.pairs[1], OrZero(s.single)]);
      ScoreParts(TwoPair, [s.pairs[0], s.pairs[1], OrZero(s.single)]);
    } else {
      PlainNames(cards, s);
    }
  }

  lemma PlainNames(cards: seq<Card>, s: Shape)
    requires Reads(cards, s) && Classify(s).category !in {ThreeKind, Pair, TwoPair}
    ensures |Classify(s).value| > 0 && Classify(s).value[0] == CategoryIndex(Classify(s).category)
    ensures NamesKickers(cards, Classify(s).category, Classify(s).value[1..])
  {
    ScoreParts(HighCard, s.ranks);
    ScoreParts(Flush, s.ranks);
  }

  /** The evaluator's category is the one the cards' ranks and suits call for, and its value lists the ranks that decide
      between such hands. */
  lemma CategoryMeaning(cards: seq<Card>)
    ensures Names(cards, EvaluateFive(cards))
  {
    ShapeReads(cards);
    ReadsNames(cards, ShapeOf(SortDescending(Ranks(cards)), Suited(cards)));
  }
}

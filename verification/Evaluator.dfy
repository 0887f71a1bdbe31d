/** Five-card scores, their comparison, and the best five of seven cards. */
module Evaluator {
  import opened Cards
  import opened Sequences
  import opened Wrappers

  datatype Category =
    HighCard | Pair | TwoPair | ThreeKind | Straight | Flush | FullHouse | FourKind | StraightFlush

  datatype HandScore = HandScore(category: Category, value: seq<int>)

  datatype Group = Group(rank: int, count: nat)

  function CategoryIndex(c: Category): int {
    match c
    case HighCard => 0
    case Pair => 1
    case TwoPair => 2
    case ThreeKind => 3
    case Straight => 4
    case Flush => 5
    case FullHouse => 6
    case FourKind => 7
    case StraightFlush => 8
  }

  function Score(c: Category, kickers: seq<int>): HandScore {
    HandScore(c, [CategoryIndex(c)] + kickers)
  }

  // ---- Ranks and groups ----

  function Ranks(cards: seq<Card>): (r: seq<int>)
    ensures |r| == |cards|
    ensures forall i | 0 <= i < |cards| :: r[i] == cards[i].rank
  {
    seq(|cards|, i requires 0 <= i < |cards| => cards[i].rank)
  }

  predicate Descending(s: seq<int>) {
    forall i, j | 0 <= i < j < |s| :: s[i] >= s[j]
  }

  function Insert(x: int, s: seq<int>): (r: seq<int>)
    requires Descending(s)
    ensures Descending(r) && multiset(r) == multiset(s) + multiset{x}
    ensures forall y :: y in r <==> y == x || y in s
  {
    if |s| == 0 then [x]
    else if x >= s[0] then [x] + s
    else
      var rest := Insert(x, s[1..]);
      assert s == [s[0]] + s[1..];
      assert forall y | y in rest :: y <= s[0];
      assert forall k | 0 <= k < |rest| :: rest[k] in rest;
      [s[0]] + rest
  }

  function SortDescending(s: seq<int>): (r: seq<int>)
    ensures Descending(r) && multiset(r) == multiset(s) && |r| == |s|
  {
    if |s| == 0 then []
    else
      var r := Insert(s[0], SortDescending(s[1..]));
      assert s == [s[0]] + s[1..];
      assert |r| == |multiset(r)| && |s| == |multiset(s)|;
      r
  }

  /** The distinct values of a sequence, in order of first occurrence. */
  function Unique(s: seq<int>): (u: seq<int>)
    ensures Distinct(u)
    ensures forall x :: x in u <==> x in s
  {
    if |s| == 0 then []
    else
      var n := |s| - 1;
      assert s == s[..n] + [s[n]];
      var u := Unique(s[..n]);
      if s[n] in u then u else u + [s[n]]
  }

  predicate Before(g: Group, h: Group) {
    g.count > h.count || (g.count == h.count && g.rank > h.rank)
  }

  predicate GroupsSorted(s: seq<Group>) {
    forall i, j | 0 <= i < j < |s| :: Before(s[i], s[j])
  }

  function InsertGroup(g: Group, s: seq<Group>): (r: seq<Group>)
    requires GroupsSorted(s) && forall h | h in s :: h.rank != g.rank
    ensures GroupsSorted(r)
    ensures forall h :: h in r <==> h == g || h in s
  {
    if |s| == 0 then [g]
    else if Before(g, s[0]) then [g] + s
    else
      var rest := InsertGroup(g, s[1..]);
      assert forall h | h in rest :: Before(s[0], h);
      [s[0]] + rest
  }

  /** One group for each of the listed ranks, largest count first, then highest rank. */
  function GroupsOf(us: seq<int>, ranks: seq<int>): (r: seq<Group>)
    requires Distinct(us)
    ensures GroupsSorted(r)
    ensures forall g :: g in r <==> g.rank in us && g.count == multiset(ranks)[g.rank]
  {
    if |us| == 0 then []
    else
      var n := |us| - 1;
      assert us == us[..n] + [us[n]];
      assert us[n] !in us[..n];
      InsertGroup(Group(us[n], multiset(ranks)[us[n]]), GroupsOf(us[..n], ranks))
  }

  function Groups(ranks: seq<int>): (r: seq<Group>)
    ensures GroupsSorted(r)
    ensures forall g :: g in r <==> g.rank in ranks && g.count == multiset(ranks)[g.rank]
  {
    GroupsOf(Unique(ranks), ranks)
  }

  /** The first group of the given size: the highest rank that occurs exactly that often. */
  function FindCount(groups: seq<Group>, count: nat): (r: Option<int>)
    requires GroupsSorted(groups)
    ensures r.Some? ==> Group(r.value, count) in groups
                        && forall g | g in groups && g.count == count :: g.rank <= r.value
    ensures r.None? ==> forall g | g in groups :: g.count != count
  {
    if |groups| == 0 then None
    else if groups[0].count == count then Some(groups[0].rank)
    else FindCount(groups[1..], count)
  }

  function RanksWithCount(groups: seq<Group>, count: nat): (r: seq<int>)
    requires GroupsSorted(groups)
    ensures forall x :: x in r <==> Group(x, count) in groups
    ensures forall i, j | 0 <= i < j < |r| :: r[i] > r[j]
  {
    if |groups| == 0 then []
    else
      var rest := RanksWithCount(groups[1..], count);
      assert forall x | x in rest :: Before(groups[0], Group(x, count));
      assert forall k | 0 <= k < |rest| :: rest[k] in rest;
      if groups[0].count == count then [groups[0].rank] + rest else rest
  }

  // ---- Straights ----

  /** The distinct ranks from high to low, with the ace repeated at the bottom as a one. */
  function Ladder(ranks: seq<int>): seq<int> {
    var u := SortDescending(Unique(ranks));
    if 14 in u then u + [1] else u
  }

  predicate RunAt(ladder: seq<int>, index: nat) {
    && index + 5 <= |ladder|
    && forall k | index <= k < index + 5 :: ladder[k] == ladder[index] - (k - index)
  }

  function StraightFrom(ladder: seq<int>, index: nat): Option<int>
    decreases |ladder| - index
  {
    if index + 5 > |ladder| then None
    else if RunAt(ladder, index) then Some(ladder[index])
    else StraightFrom(ladder, index + 1)
  }

  function StraightTop(ranks: seq<int>): Option<int> { StraightFrom(Ladder(ranks), 0) }

  method StraightHigh(ranks: seq<int>) returns (high: Option<int>)
    ensures high == StraightTop(ranks)
  {
    var ladder := Ladder(ranks);
    var index := 0;
    while index <= |ladder| - 5
      invariant 0 <= index
      invariant StraightFrom(ladder, 0) == StraightFrom(ladder, index)
    {
      if RunAt(ladder, index) {
        return Some(ladder[index]);
      }
      index := index + 1;
    }
    return None;
  }

  // ---- Five cards ----

  predicate Suited(cards: seq<Card>) {
    forall i | 0 <= i < |cards| :: cards[i].suit == cards[0].suit
  }

  function OrZero(r: Option<int>): int { if r.Some? then r.value else 0 }

  /** What the classification looks at: the groups by size, the straight and the flush. */
  datatype Shape = Shape(
    ranks: seq<int>,
    flush: bool,
    straight: Option<int>,
    four: Option<int>,
    three: Option<int>,
    pair: Option<int>,
    single: Option<int>,
    pairs: seq<int>,
    singles: seq<int>)

  function ShapeOf(ranks: seq<int>, flush: bool): Shape {
    var groups := Groups(ranks);
    Shape(ranks, flush, StraightTop(ranks),
          FindCount(groups, 4), FindCount(groups, 3), FindCount(groups, 2), FindCount(groups, 1),
          RanksWithCount(groups, 2), RanksWithCount(groups, 1))
  }

  function Classify(s: Shape): HandScore {
    if s.flush && s.straight.Some? then Score(StraightFlush, [s.straight.value])
    else if s.four.Some? then Score(FourKind, [s.four.value, OrZero(s.single)])
    else if s.three.Some? && s.pair.Some? then Score(FullHouse, [s.three.value, s.pair.value])
    else if s.flush then Score(Flush, s.ranks)
    else if s.straight.Some? then Score(Straight, [s.straight.value])
    else if s.three.Some? then Score(ThreeKind, [s.three.value] + s.singles)
    else if |s.pairs| >= 2 then Score(TwoPair, [s.pairs[0], s.pairs[1], OrZero(s.single)])
    else if s.pair.Some? then Score(Pair, [s.pair.value] + s.singles)
    else Score(HighCard, s.ranks)
  }

  function ScoreFive(ranks: seq<int>, flush: bool): HandScore { Classify(ShapeOf(ranks, flush)) }

  function EvaluateFive(cards: seq<Card>): HandScore {
    ScoreFive(SortDescending(Ranks(cards)), Suited(cards))
  }

  // ---- Comparison ----

  function At(v: seq<int>, i: nat): int { if i < |v| then v[i] else 0 }

  function Sign(x: int): int { if x > 0 then 1 else if x < 0 then -1 else 0 }

  /** Lexicographic order of the value vectors from position i, a missing entry counting as zero. */
  function CompareFrom(a: seq<int>, b: seq<int>, i: nat, n: nat): int
    decreases n - i
  {
    if i >= n then 0
    else if At(a, i) != At(b, i) then Sign(At(a, i) - At(b, i))
    else CompareFrom(a, b, i + 1, n)
  }

  function Longer(a: seq<int>, b: seq<int>): nat { if |a| < |b| then |b| else |a| }

  function Compare(a: HandScore, b: HandScore): int {
    CompareFrom(a.value, b.value, 0, Longer(a.value, b.value))
  }

  method CompareHands(a: HandScore, b: HandScore) returns (r: int)
    ensures r == Compare(a, b)
  {
    var length := Longer(a.value, b.value);
    for index := 0 to length
      invariant Compare(a, b) == CompareFrom(a.value, b.value, index, length)
    {
      var difference := At(a.value, index) - At(b.value, index);
      if difference != 0 {
        return Sign(difference);
      }
    }
    return 0;
  }

  // ---- Seven cards ----

  /** r is attained by five of the cards, and no five of the cards score higher. */
  ghost predicate IsBest(cards: seq<Card>, r: HandScore) {
    && (exists h: seq<Card> :: FiveOf(h, cards) && r == EvaluateFive(h))
    && (forall h: seq<Card> | FiveOf(h, cards) :: Compare(r, EvaluateFive(h)) >= 0)
  }

  ghost predicate FiveOf(h: seq<Card>, cards: seq<Card>) {
    |h| == 5 && multiset(h) <= multiset(cards)
  }

  function Better(a: HandScore, b: HandScore): HandScore { if Compare(b, a) > 0 then b else a }

  /** The best completion of a partial hand to five cards from a pool: take the next card or skip it. */
  function BestFrom(pool: seq<Card>, hand: seq<Card>): HandScore
    requires |hand| <= 5 <= |hand| + |pool|
    decreases |pool|
  {
    if |hand| == 5 then EvaluateFive(hand)
    else if |hand| + |pool| == 5 then EvaluateFive(hand + pool)
    else Better(BestFrom(pool[1..], hand + [pool[0]]), BestFrom(pool[1..], hand))
  }

  function BestOfSeven(cards: seq<Card>): HandScore
    requires |cards| == 7
  {
    BestFrom(cards, [])
  }
}

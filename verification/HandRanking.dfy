/** What the evaluator's scores mean: a total preorder, independence of card order, and the best of seven. */
module HandRanking {
  import opened Cards
  import opened Evaluator
  import opened Sequences
  import opened Wrappers

  // ---- The comparison is a total preorder ----

  lemma {:induction false} CompareSymmetric(a: seq<int>, b: seq<int>, i: nat, n: nat)
    ensures CompareFrom(a, b, i, n) == -CompareFrom(b, a, i, n)
    decreases n - i
  {
    if i < n {
      CompareSymmetric(a, b, i + 1, n);
    }
  }

  lemma {:induction false} CompareBeyond(a: seq<int>, b: seq<int>, i: nat, n: nat, m: nat)
    requires |a| <= n <= m && |b| <= n
    ensures CompareFrom(a, b, i, n) == CompareFrom(a, b, i, m)
    decreases m - i
  {
    if i < m {
      CompareBeyond(a, b, i + 1, n, m);
    }
  }

  lemma {:induction false} CompareChains(a: seq<int>, b: seq<int>, c: seq<int>, i: nat, n: nat)
    requires CompareFrom(a, b, i, n) >= 0 && CompareFrom(b, c, i, n) >= 0
    ensures CompareFrom(a, c, i, n) >= 0
    ensures CompareFrom(a, c, i, n) == 0 ==> CompareFrom(a, b, i, n) == 0 && CompareFrom(b, c, i, n) == 0
    decreases n - i
  {
    if i < n && At(a, i) == At(b, i) == At(c, i) {
      CompareChains(a, b, c, i + 1, n);
    }
  }

  /** Any two hands are comparable, and swapping them flips the answer. */
  lemma CompareTotal(a: HandScore, b: HandScore)
    ensures Compare(a, b) == -Compare(b, a)
    ensures Compare(a, b) >= 0 || Compare(b, a) >= 0
    ensures Compare(a, a) == 0
  {
    CompareSymmetric(a.value, b.value, 0, Longer(a.value, b.value));
    CompareSymmetric(a.value, a.value, 0, |a.value|);
  }

  lemma CompareTransitive(a: HandScore, b: HandScore, c: HandScore)
    requires Compare(a, b) >= 0 && Compare(b, c) >= 0
    ensures Compare(a, c) >= 0
    ensures Compare(a, c) == 0 ==> Compare(a, b) == 0 && Compare(b, c) == 0
  {
    var n := |a.value| + |b.value| + |c.value|;
    CompareBeyond(a.value, b.value, 0, Longer(a.value, b.value), n);
    CompareBeyond(b.value, c.value, 0, Longer(b.value, c.value), n);
    CompareBeyond(a.value, c.value, 0, Longer(a.value, c.value), n);
    CompareChains(a.value, b.value, c.value, 0, n);
  }

  lemma {:induction false} CompareZero(a: seq<int>, b: seq<int>, i: nat, n: nat)
    requires CompareFrom(a, b, i, n) == 0
    ensures forall k | i <= k < n :: At(a, k) == At(b, k)
    decreases n - i
  {
    if i < n {
      CompareZero(a, b, i + 1, n);
    }
  }

  // ---- Hands that compare equal have equal value vectors ----

  predicate Kickers(v: seq<int>) {
    forall k | 1 <= k < |v| :: v[k] > 0
  }

  lemma {:induction false} StraightPositive(ladder: seq<int>, index: nat)
    requires forall k | 0 <= k < |ladder| :: ladder[k] > 0
    ensures StraightFrom(ladder, index).Some? ==> StraightFrom(ladder, index).value >= 5
    decreases |ladder| - index
  {
    if index + 5 <= |ladder| {
      if RunAt(ladder, index) {
        assert ladder[index + 4] == ladder[index] - 4;
      } else {
        StraightPositive(ladder, index + 1);
      }
    }
  }

  lemma LadderPositive(ranks: seq<int>)
    requires forall r | r in ranks :: r > 0
    ensures forall k | 0 <= k < |Ladder(ranks)| :: Ladder(ranks)[k] > 0
  {
    var u := SortDescending(Unique(ranks));
    forall k | 0 <= k < |u| ensures u[k] > 0 {
      assert u[k] in multiset(u);
      assert u[k] in Unique(ranks);
    }
  }

  lemma GroupRanksPositive(ranks: seq<int>, count: nat)
    requires forall r | r in ranks :: r > 0
    ensures forall k | 0 <= k < |RanksWithCount(Groups(ranks), count)| :: RanksWithCount(Groups(ranks), count)[k] > 0
    ensures FindCount(Groups(ranks), count).Some? ==> FindCount(Groups(ranks), count).value > 0
  {
    var rs := RanksWithCount(Groups(ranks), count);
    forall k | 0 <= k < |rs| ensures rs[k] > 0 {
      assert rs[k] in rs;
      assert Group(rs[k], count) in Groups(ranks);
    }
  }

  predicate Positive(v: seq<int>) {
    forall k | 0 <= k < |v| :: v[k] > 0
  }

  predicate PositiveShape(s: Shape) {
    && Positive(s.ranks) && Positive(s.singles)
    && (s.straight.Some? ==> s.straight.value > 0)
    && (s.three.Some? ==> s.three.value > 0)
    && (s.pair.Some? ==> s.pair.value > 0)
  }

  /** Every entry after the category is positive, except in the two categories of fixed length. */
  predicate WellShaped(s: HandScore) {
    && |s.value| >= 1 && s.value[0] == CategoryIndex(s.category)
    && (s.category == FourKind ==> |s.value| == 3)
    && (s.category == TwoPair ==> |s.value| == 4)
    && (s.category != FourKind && s.category != TwoPair ==> Kickers(s.value))
  }

  lemma ClassifyWellShaped(s: Shape)
    requires PositiveShape(s)
    ensures WellShaped(Classify(s))
  {
  }

  lemma ScoreShape(ranks: seq<int>, flush: bool)
    requires forall r | r in ranks :: r > 0
    ensures WellShaped(ScoreFive(ranks, flush))
  {
    assert Positive(ranks) by {
      assert forall k | 0 <= k < |ranks| :: ranks[k] in ranks;
    }
    LadderPositive(ranks);
    StraightPositive(Ladder(ranks), 0);
    GroupRanksPositive(ranks, 1);
    GroupRanksPositive(ranks, 2);
    GroupRanksPositive(ranks, 3);
    ClassifyWellShaped(ShapeOf(ranks, flush));
  }

  lemma SortedRanksPositive(cards: seq<Card>)
    ensures forall r | r in SortDescending(Ranks(cards)) :: r > 0
  {
    forall r | r in SortDescending(Ranks(cards)) ensures r > 0 {
      assert r in multiset(SortDescending(Ranks(cards)));
      assert r in Ranks(cards);
    }
  }

  lemma CategoryOfIndex(c: Category, d: Category)
    requires CategoryIndex(c) == CategoryIndex(d)
    ensures c == d
  {
  }

  lemma EqualShapedScores(s: HandScore, t: HandScore)
    requires WellShaped(s) && WellShaped(t) && Compare(s, t) == 0
    ensures s == t
  {
    CompareZero(s.value, t.value, 0, Longer(s.value, t.value));
    assert At(s.value, 0) == At(t.value, 0);
    CategoryOfIndex(s.category, t.category);
    assert At(s.value, |s.value|) == 0 && At(t.value, |t.value|) == 0;
    assert |s.value| == |t.value|;
    assert s.value == t.value by {
      forall k | 0 <= k < |s.value| ensures s.value[k] == t.value[k] {
        assert At(s.value, k) == At(t.value, k);
      }
    }
  }

  lemma FiveWellShaped(cards: seq<Card>)
    ensures WellShaped(EvaluateFive(cards))
  {
    SortedRanksPositive(cards);
    ScoreShape(SortDescending(Ranks(cards)), Suited(cards));
  }

  /** Two five-card hands that compare equal are in the same category with the same kickers. */
  lemma EqualHandsEqualScores(a: seq<Card>, b: seq<Card>)
    requires Compare(EvaluateFive(a), EvaluateFive(b)) == 0
    ensures EvaluateFive(a) == EvaluateFive(b)
  {
    FiveWellShaped(a);
    FiveWellShaped(b);
    EqualShapedScores(EvaluateFive(a), EvaluateFive(b));
  }

  // ---- The score of five cards does not depend on their order ----

  lemma HeadBag<T>(s: seq<T>)
    requires |s| > 0
    ensures multiset(s) == multiset{s[0]} + multiset(s[1..])
  {
    assert s == [s[0]] + s[1..];
  }

  lemma SameHead(a: seq<int>, b: seq<int>)
    requires Descending(a) && Descending(b) && multiset(a) == multiset(b) && |a| > 0
    ensures |b| > 0 && a[0] == b[0]
  {
    assert a[0] in multiset(a);
    assert a[0] in b;
    assert b[0] in multiset(b);
    assert b[0] in a;
  }

  lemma {:induction false} SortedUnique(a: seq<int>, b: seq<int>)
    requires Descending(a) && Descending(b) && multiset(a) == multiset(b)
    ensures a == b
  {
    if |a| == 0 {
      assert |multiset(b)| == 0;
    } else {
      SameHead(a, b);
      HeadBag(a);
      HeadBag(b);
      assert multiset(a[1..]) == multiset(a) - multiset{a[0]};
      assert multiset(b[1..]) == multiset(b) - multiset{b[0]};
      SortedUnique(a[1..], b[1..]);
      assert a == [a[0]] + a[1..] && b == [b[0]] + b[1..];
    }
  }

  lemma RemoveAt<T>(b: seq<T>, k: nat)
    requires k < |b|
    ensures multiset(b) == multiset(b[..k] + b[k + 1..]) + multiset{b[k]}
  {
    assert b == b[..k] + ([b[k]] + b[k + 1..]);
  }

  lemma RanksRemoveAt(b: seq<Card>, k: nat)
    requires k < |b|
    ensures multiset(Ranks(b)) == multiset(Ranks(b[..k] + b[k + 1..])) + multiset{b[k].rank as int}
  {
    RemoveAt(Ranks(b), k);
    assert Ranks(b)[..k] + Ranks(b)[k + 1..] == Ranks(b[..k] + b[k + 1..]);
  }

  /** Removing one card from both of two rearranged hands leaves rearranged hands. */
  lemma RemoveBoth<T>(a: seq<T>, b: seq<T>, k: nat)
    requires multiset(a) == multiset(b) && |a| > 0 && k < |b| && b[k] == a[0]
    ensures multiset(a[1..]) == multiset(b[..k] + b[k + 1..])
  {
    RemoveAt(b, k);
    HeadBag(a);
    assert multiset(a[1..]) == multiset(a) - multiset{a[0]};
  }

  lemma FindFirst(a: seq<Card>, b: seq<Card>) returns (k: nat)
    requires multiset(a) == multiset(b) && |a| > 0
    ensures k < |b| && b[k] == a[0]
  {
    assert a[0] in multiset(a);
    assert a[0] in b;
    k :| 0 <= k < |b| && b[k] == a[0];
  }

  lemma AddBack(m: multiset<int>, n: multiset<int>, p: multiset<int>, q: multiset<int>, x: int)
    requires m == p + multiset{x} && n == q + multiset{x} && p == q
    ensures m == n
  {
  }

  lemma RanksHead(a: seq<Card>)
    requires |a| > 0
    ensures multiset(Ranks(a)) == multiset(Ranks(a[1..])) + multiset{a[0].rank as int}
  {
    assert Ranks(a) == [a[0].rank] + Ranks(a[1..]);
  }

  /** Adding the same rank back to equal bags of ranks. */
  lemma RanksRestored(a: seq<Card>, b: seq<Card>, k: nat)
    requires |a| > 0 && k < |b| && b[k] == a[0]
    requires multiset(Ranks(a[1..])) == multiset(Ranks(b[..k] + b[k + 1..]))
    ensures multiset(Ranks(a)) == multiset(Ranks(b))
  {
    RanksRemoveAt(b, k);
    RanksHead(a);
    AddBack(multiset(Ranks(a)), multiset(Ranks(b)),
            multiset(Ranks(a[1..])), multiset(Ranks(b[..k] + b[k + 1..])), a[0].rank as int);
  }

  /** Rearranged cards have rearranged ranks. */
  lemma {:induction false} RanksOfRearranged(a: seq<Card>, b: seq<Card>)
    requires multiset(a) == multiset(b)
    ensures multiset(Ranks(a)) == multiset(Ranks(b))
    decreases |a|
  {
    if |a| == 0 {
      assert |multiset(b)| == 0;
      assert b == [];
    } else {
      var k := FindFirst(a, b);
      RemoveBoth(a, b, k);
      RanksOfRearranged(a[1..], b[..k] + b[k + 1..]);
      RanksRestored(a, b, k);
    }
  }

  lemma SuitedByMembers(cards: seq<Card>)
    ensures Suited(cards) <==> forall c, d | c in multiset(cards) && d in multiset(cards) :: c.suit == d.suit
  {
    if Suited(cards) {
      forall c, d | c in multiset(cards) && d in multiset(cards) ensures c.suit == d.suit {
        assert c in cards && d in cards;
      }
    }
    if forall c, d | c in multiset(cards) && d in multiset(cards) :: c.suit == d.suit {
      forall i | 0 <= i < |cards| ensures cards[i].suit == cards[0].suit {
        assert cards[i] in multiset(cards) && cards[0] in multiset(cards);
      }
    }
  }

  /** Rearranging five cards does not change their score. */
  lemma ScoreIgnoresOrder(a: seq<Card>, b: seq<Card>)
    requires multiset(a) == multiset(b)
    ensures EvaluateFive(a) == EvaluateFive(b)
  {
    RanksOfRearranged(a, b);
    SortedUnique(SortDescending(Ranks(a)), SortDescending(Ranks(b)));
    SuitedByMembers(a);
    SuitedByMembers(b);
  }

  // ---- The best of seven ----

  lemma WholeBag<T>(m: multiset<T>, n: multiset<T>)
    requires m <= n && |m| == |n|
    ensures m == n
  {
    assert n == m + (n - m);
    assert |n - m| == 0;
  }

  lemma Bags<T>(s: seq<T>, t: seq<T>)
    ensures multiset(s + t) == multiset(s) + multiset(t)
  {
  }

  /** The recursion's answer is one of the completions. */
  lemma {:induction false} BestIsAttained(pool: seq<Card>, hand: seq<Card>) returns (h: seq<Card>)
    requires |hand| <= 5 <= |hand| + |pool|
    ensures |h| == 5 && multiset(h) <= multiset(hand) + multiset(pool)
    ensures EvaluateFive(h) == BestFrom(pool, hand)
    decreases |pool|
  {
    if |hand| == 5 {
      h := hand;
    } else if |hand| + |pool| == 5 {
      h := hand + pool;
      Bags(hand, pool);
    } else {
      HeadBag(pool);
      Bags(hand, [pool[0]]);
      var take := BestFrom(pool[1..], hand + [pool[0]]);
      var skip := BestFrom(pool[1..], hand);
      if Compare(skip, take) > 0 {
        h := BestIsAttained(pool[1..], hand);
      } else {
        h := BestIsAttained(pool[1..], hand + [pool[0]]);
      }
    }
  }

  /** No completion scores higher than the recursion's answer. */
  lemma {:induction false} BestDominates(pool: seq<Card>, hand: seq<Card>, h: seq<Card>, rest: multiset<Card>)
    requires |hand| <= 5 <= |hand| + |pool| && |h| == 5
    requires multiset(h) == multiset(hand) + rest && rest <= multiset(pool)
    ensures Compare(BestFrom(pool, hand), EvaluateFive(h)) >= 0
    decreases |pool|
  {
    assert |multiset(h)| == 5 && |multiset(hand)| == |hand| && |rest| == 5 - |hand|;
    if |hand| == 5 {
      assert rest == multiset{};
      ScoreIgnoresOrder(h, hand);
      CompareTotal(EvaluateFive(h), EvaluateFive(h));
    } else if |hand| + |pool| == 5 {
      WholeBag(rest, multiset(pool));
      Bags(hand, pool);
      ScoreIgnoresOrder(h, hand + pool);
      CompareTotal(EvaluateFive(h), EvaluateFive(h));
    } else {
      BestStep(pool, hand, h, rest);
    }
  }

  lemma {:induction false} BestStep(pool: seq<Card>, hand: seq<Card>, h: seq<Card>, rest: multiset<Card>)
    requires |hand| < 5 < |hand| + |pool| && |h| == 5
    requires multiset(h) == multiset(hand) + rest && rest <= multiset(pool)
    ensures Compare(BestFrom(pool, hand), EvaluateFive(h)) >= 0
    decreases |pool|, 0
  {
    HeadBag(pool);
    var take := BestFrom(pool[1..], hand + [pool[0]]);
    var skip := BestFrom(pool[1..], hand);
    CompareTotal(skip, take);
    if pool[0] in rest {
      Bags(hand, [pool[0]]);
      assert multiset(h) == multiset(hand + [pool[0]]) + (rest - multiset{pool[0]});
      BestDominates(pool[1..], hand + [pool[0]], h, rest - multiset{pool[0]});
      if Compare(skip, take) > 0 {
        CompareTransitive(skip, take, EvaluateFive(h));
      }
    } else {
      BestDominates(pool[1..], hand, h, rest);
      if Compare(skip, take) <= 0 {
        CompareTransitive(take, skip, EvaluateFive(h));
      }
    }
  }

  /** The recursion over seven cards finds a five-card hand nothing among them beats. */
  lemma BestOfSevenIsBest(cards: seq<Card>)
    requires |cards| == 7
    ensures IsBest(cards, BestOfSeven(cards))
  {
    var h := BestIsAttained(cards, []);
    assert multiset(h) <= multiset(cards);
    assert FiveOf(h, cards);
    forall h: seq<Card> | FiveOf(h, cards) ensures Compare(BestOfSeven(cards), EvaluateFive(h)) >= 0 {
      BestDominates(cards, [], h, multiset(h));
    }
  }

  /** There is only one such score. */
  lemma BestIsUnique(cards: seq<Card>, r: HandScore, t: HandScore)
    requires IsBest(cards, r) && IsBest(cards, t)
    ensures r == t
  {
    var h: seq<Card> :| FiveOf(h, cards) && r == EvaluateFive(h);
    var g: seq<Card> :| FiveOf(g, cards) && t == EvaluateFive(g);
    CompareTotal(r, t);
    EqualHandsEqualScores(h, g);
  }

  /** The value of seven cards does not depend on the order they come in. */
  lemma SevenIgnoresOrder(a: seq<Card>, b: seq<Card>)
    requires |a| == 7 && multiset(a) == multiset(b)
    ensures |b| == 7 && BestOfSeven(a) == BestOfSeven(b)
  {
    assert |multiset(b)| == |b| && |multiset(a)| == |a|;
    BestOfSevenIsBest(a);
    BestOfSevenIsBest(b);
    assert forall h: seq<Card> :: FiveOf(h, a) == FiveOf(h, b);
    assert IsBest(b, BestOfSeven(a));
    BestIsUnique(b, BestOfSeven(a), BestOfSeven(b));
  }
}

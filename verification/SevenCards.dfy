/** The exhaustive search for the best five of seven cards. */
module SevenCards {
  import opened Cards
  import opened Evaluator
  import opened HandRanking
  import opened Sealing
  import opened Sequences
  import opened Wrappers

  /** Five positions among the seven cards. */
  datatype Choice = Choice(a: int, b: int, c: int, d: int, e: int)

  predicate Increasing(f: Choice) { 0 <= f.a < f.b < f.c < f.d < f.e < 7 }

  /** The order in which the nested loops reach positions: lexicographic. */
  predicate Less(f: Choice, g: Choice) {
    f.a < g.a || (f.a == g.a &&
    (f.b < g.b || (f.b == g.b &&
    (f.c < g.c || (f.c == g.c &&
    (f.d < g.d || (f.d == g.d && f.e < g.e)))))))
  }

  ghost predicate Ascending(idx: seq<nat>, n: nat) {
    && (forall i | 0 <= i < |idx| :: idx[i] < n)
    && (forall i, j | 0 <= i < j < |idx| :: idx[i] < idx[j])
  }

  function Pick(cards: seq<Card>, idx: seq<nat>): (r: seq<Card>)
    requires forall i | 0 <= i < |idx| :: idx[i] < |cards|
    ensures |r| == |idx|
    ensures forall i | 0 <= i < |idx| :: r[i] == cards[idx[i]]
  {
    seq(|idx|, i requires 0 <= i < |idx| => cards[idx[i]])
  }

  function Positions(f: Choice): (idx: seq<nat>)
    requires Increasing(f)
    ensures |idx| == 5 && Ascending(idx, 7)
    ensures idx[0] == f.a && idx[1] == f.b && idx[2] == f.c && idx[3] == f.d && idx[4] == f.e
  {
    [f.a, f.b, f.c, f.d, f.e]
  }

  function HandAt(cards: seq<Card>, f: Choice): seq<Card>
    requires |cards| == 7 && Increasing(f)
  {
    Pick(cards, Positions(f))
  }

  function ScoreAt(cards: seq<Card>, f: Choice): HandScore
    requires |cards| == 7 && Increasing(f)
  {
    EvaluateFive(HandAt(cards, f))
  }

  /** r is the score of the choice. */
  ghost predicate Scores(cards: seq<Card>, f: Choice, r: HandScore)
    requires |cards| == 7
  {
    forall k {:trigger Open(ScoresSeal, k)} :: Open(ScoresSeal, k) ==> Increasing(f) && r == ScoreAt(cards, f)
  }

  lemma ScoresMeans(cards: seq<Card>, f: Choice, r: HandScore)
    requires |cards| == 7
    ensures Scores(cards, f, r) <==> Increasing(f) && r == ScoreAt(cards, f)
  {
    assert Open(ScoresSeal, 0);
  }

  lemma OneScore(cards: seq<Card>, f: Choice, r: HandScore, t: HandScore)
    requires |cards| == 7 && Scores(cards, f, r) && Scores(cards, f, t)
    ensures r == t
  {
    assert Open(ScoresSeal, 0);
  }

  /** The best so far is the best of the choices visited. */
  ghost predicate BestFacts(cards: seq<Card>, visited: seq<Choice>, best: Option<HandScore>)
    requires |cards| == 7
  {
    && (visited == [] <==> best.None?)
    && (best.Some? ==>
          && (exists f :: f in visited && Scores(cards, f, best.value))
          && (forall f, r | f in visited && Scores(cards, f, r) :: Compare(best.value, r) >= 0))
  }

  ghost predicate BestSoFar(cards: seq<Card>, visited: seq<Choice>, best: Option<HandScore>)
    requires |cards| == 7
  {
    forall k {:trigger Open(BestSoFarSeal, k)} :: Open(BestSoFarSeal, k) ==> BestFacts(cards, visited, best)
  }

  /** Exactly the choices below the bound have been visited, in order. */
  ghost predicate VisitedBelow(visited: seq<Choice>, bound: Choice) {
    && (forall f :: f in visited <==> Increasing(f) && Less(f, bound))
    && (forall i, j | 0 <= i < j < |visited| :: Less(visited[i], visited[j]))
  }

  ghost predicate Tried(cards: seq<Card>, visited: seq<Choice>, best: Option<HandScore>, bound: Choice)
    requires |cards| == 7
  {
    forall k {:trigger Open(TriedSeal, k)} :: Open(TriedSeal, k) ==>
                                     VisitedBelow(visited, bound) && BestSoFar(cards, visited, best)
  }

  lemma NothingVisited(visited: seq<Choice>)
    requires visited == []
    ensures VisitedBelow(visited, Choice(0, 0, 0, 0, 0))
  {
  }

  lemma TriedNone(cards: seq<Card>)
    requires |cards| == 7
    ensures Tried(cards, [], None, Choice(0, 0, 0, 0, 0))
  {
    NothingVisited([]);
    assert BestSoFar(cards, [], None);
  }

  /** Moving the bound over a stretch without choices. */
  lemma TriedSkip(cards: seq<Card>, visited: seq<Choice>, best: Option<HandScore>, bound: Choice, next: Choice)
    requires |cards| == 7 && Tried(cards, visited, best, bound)
    requires forall f | Increasing(f) :: Less(f, bound) <==> Less(f, next)
    ensures Tried(cards, visited, best, next)
  {
    assert Open(TriedSeal, 0);
  }

  // A loop index starts above the previous one, and stops where too few positions are left.

  lemma EnterSecond(cards: seq<Card>, visited: seq<Choice>, best: Option<HandScore>, a: int)
    requires |cards| == 7 && 0 <= a < 3 && Tried(cards, visited, best, Choice(a, 0, 0, 0, 0))
    ensures Tried(cards, visited, best, Choice(a, a + 1, 0, 0, 0))
  {
    TriedSkip(cards, visited, best, Choice(a, 0, 0, 0, 0), Choice(a, a + 1, 0, 0, 0));
  }

  lemma LeaveSecond(cards: seq<Card>, visited: seq<Choice>, best: Option<HandScore>, a: int)
    requires |cards| == 7 && 0 <= a < 3 && Tried(cards, visited, best, Choice(a, 4, 0, 0, 0))
    ensures Tried(cards, visited, best, Choice(a + 1, 0, 0, 0, 0))
  {
    TriedSkip(cards, visited, best, Choice(a, 4, 0, 0, 0), Choice(a + 1, 0, 0, 0, 0));
  }

  lemma EnterThird(cards: seq<Card>, visited: seq<Choice>, best: Option<HandScore>, a: int, b: int)
    requires |cards| == 7 && 0 <= a < b < 4 && Tried(cards, visited, best, Choice(a, b, 0, 0, 0))
    ensures Tried(cards, visited, best, Choice(a, b, b + 1, 0, 0))
  {
    TriedSkip(cards, visited, best, Choice(a, b, 0, 0, 0), Choice(a, b, b + 1, 0, 0));
  }

  lemma LeaveThird(cards: seq<Card>, visited: seq<Choice>, best: Option<HandScore>, a: int, b: int)
    requires |cards| == 7 && 0 <= a < b < 4 && Tried(cards, visited, best, Choice(a, b, 5, 0, 0))
    ensures Tried(cards, visited, best, Choice(a, b + 1, 0, 0, 0))
  {
    TriedSkip(cards, visited, best, Choice(a, b, 5, 0, 0), Choice(a, b + 1, 0, 0, 0));
  }

  lemma EnterFourth(cards: seq<Card>, visited: seq<Choice>, best: Option<HandScore>, a: int, b: int, c: int)
    requires |cards| == 7 && 0 <= a < b < c < 5 && Tried(cards, visited, best, Choice(a, b, c, 0, 0))
    ensures Tried(cards, visited, best, Choice(a, b, c, c + 1, 0))
  {
    TriedSkip(cards, visited, best, Choice(a, b, c, 0, 0), Choice(a, b, c, c + 1, 0));
  }

  lemma LeaveFourth(cards: seq<Card>, visited: seq<Choice>, best: Option<HandScore>, a: int, b: int, c: int)
    requires |cards| == 7 && 0 <= a < b < c < 5 && Tried(cards, visited, best, Choice(a, b, c, 6, 0))
    ensures Tried(cards, visited, best, Choice(a, b, c + 1, 0, 0))
  {
    TriedSkip(cards, visited, best, Choice(a, b, c, 6, 0), Choice(a, b, c + 1, 0, 0));
  }

  lemma EnterFifth(cards: seq<Card>, visited: seq<Choice>, best: Option<HandScore>, a: int, b: int, c: int, d: int)
    requires |cards| == 7 && 0 <= a < b < c < d < 6 && Tried(cards, visited, best, Choice(a, b, c, d, 0))
    ensures Tried(cards, visited, best, Choice(a, b, c, d, d + 1))
  {
    TriedSkip(cards, visited, best, Choice(a, b, c, d, 0), Choice(a, b, c, d, d + 1));
  }

  lemma LeaveFifth(cards: seq<Card>, visited: seq<Choice>, best: Option<HandScore>, a: int, b: int, c: int, d: int)
    requires |cards| == 7 && 0 <= a < b < c < d < 6 && Tried(cards, visited, best, Choice(a, b, c, d, 7))
    ensures Tried(cards, visited, best, Choice(a, b, c, d + 1, 0))
  {
    TriedSkip(cards, visited, best, Choice(a, b, c, d, 7), Choice(a, b, c, d + 1, 0));
  }

  function Improve(best: Option<HandScore>, current: HandScore): Option<HandScore> {
    if best.None? || Compare(current, best.value) > 0 then Some(current) else best
  }

  function After(f: Choice): Choice { f.(e := f.e + 1) }

  lemma LessAfter(g: Choice, f: Choice)
    ensures Less(g, After(f)) <==> Less(g, f) || g == f
  {
  }

  lemma VisitOne(visited: seq<Choice>, f: Choice)
    requires Increasing(f) && VisitedBelow(visited, f)
    ensures VisitedBelow(visited + [f], After(f))
  {
    forall g ensures g in visited + [f] <==> Increasing(g) && Less(g, After(f)) {
      LessAfter(g, f);
    }
    forall i, j | 0 <= i < j < |visited + [f]| ensures Less((visited + [f])[i], (visited + [f])[j]) {
      assert (visited + [f])[i] == visited[i] && visited[i] in visited;
    }
  }

  /** A better score is at least every score the old best was at least, and itself. */
  lemma BetterStill(best: HandScore, current: HandScore, r: HandScore)
    requires Compare(best, r) >= 0
    ensures Compare(Improve(Some(best), current).value, r) >= 0
    ensures Compare(Improve(Some(best), current).value, current) >= 0
  {
    CompareTotal(current, best);
    CompareTotal(current, current);
    if Compare(current, best) > 0 {
      CompareTransitive(current, best, r);
    }
  }

  lemma ImproveFirst(cards: seq<Card>, f: Choice, current: HandScore)
    requires |cards| == 7 && Scores(cards, f, current)
    ensures BestFacts(cards, [f], Some(current))
  {
    CompareTotal(current, current);
    assert f in [f];
    forall g, r | g in [f] && Scores(cards, g, r) ensures Compare(current, r) >= 0 {
      OneScore(cards, f, r, current);
    }
  }

  lemma ImproveOne(cards: seq<Card>, visited: seq<Choice>, best: HandScore, f: Choice, current: HandScore)
    requires |cards| == 7 && Scores(cards, f, current) && BestFacts(cards, visited, Some(best))
    ensures BestFacts(cards, visited + [f], Improve(Some(best), current))
  {
    var t := Improve(Some(best), current).value;
    var g :| g in visited && Scores(cards, g, best);
    assert g in visited + [f] && f in visited + [f];
    BetterStill(best, current, best) by {
      CompareTotal(best, best);
    }
    forall h, r | h in visited + [f] && Scores(cards, h, r) ensures Compare(t, r) >= 0 {
      if h in visited {
        BetterStill(best, current, r);
      } else {
        OneScore(cards, f, r, current);
      }
    }
  }

  lemma ImproveBest(cards: seq<Card>, visited: seq<Choice>, best: Option<HandScore>, f: Choice, current: HandScore)
    requires |cards| == 7 && Scores(cards, f, current) && BestSoFar(cards, visited, best)
    ensures BestSoFar(cards, visited + [f], Improve(best, current))
  {
    assert Open(BestSoFarSeal, 0);
    if best.None? {
      assert visited + [f] == [f];
      ImproveFirst(cards, f, current);
    } else {
      ImproveOne(cards, visited, best.value, f, current);
    }
  }

  /** Trying one more choice. */
  lemma TriedStep(cards: seq<Card>, visited: seq<Choice>, best: Option<HandScore>, f: Choice, current: HandScore)
    requires |cards| == 7 && Increasing(f) && Scores(cards, f, current) && Tried(cards, visited, best, f)
    ensures Tried(cards, visited + [f], Improve(best, current), After(f))
  {
    assert VisitedBelow(visited, f) && BestSoFar(cards, visited, best) by {
      assert Open(TriedSeal, 0);
    }
    VisitOne(visited, f);
    ImproveBest(cards, visited, best, f, current);
  }

  // ---- The choices are all the five-card hands ----

  lemma LastBag(cards: seq<Card>)
    requires |cards| > 0
    ensures multiset(cards) == multiset(cards[..|cards| - 1]) + multiset{cards[|cards| - 1]}
  {
    assert cards == cards[..|cards| - 1] + [cards[|cards| - 1]];
  }

  lemma TakeLast(before: multiset<Card>, last: Card, bag: multiset<Card>)
    requires bag <= before + multiset{last} && !(bag <= before)
    ensures last in bag && bag - multiset{last} <= before
    ensures bag - multiset{last} + multiset{last} == bag
  {
  }

  /** Every bag of cards taken from a sequence sits at some ascending positions. */
  lemma {:induction false} BagPositions(cards: seq<Card>, bag: multiset<Card>) returns (idx: seq<nat>)
    requires bag <= multiset(cards)
    ensures Ascending(idx, |cards|) && multiset(Pick(cards, idx)) == bag
  {
    if |cards| == 0 {
      idx := [];
    } else {
      var n := |cards| - 1;
      LastBag(cards);
      if bag <= multiset(cards[..n]) {
        idx := BagPositions(cards[..n], bag);
        assert Pick(cards, idx) == Pick(cards[..n], idx);
      } else {
        TakeLast(multiset(cards[..n]), cards[n], bag);
        var rest := BagPositions(cards[..n], bag - multiset{cards[n]});
        idx := rest + [n];
        assert Pick(cards, idx) == Pick(cards[..n], rest) + [cards[n]];
      }
    }
  }

  lemma HandIsChoice(cards: seq<Card>, h: seq<Card>) returns (f: Choice)
    requires |cards| == 7 && FiveOf(h, cards)
    ensures Increasing(f) && EvaluateFive(h) == ScoreAt(cards, f)
  {
    var idx := BagPositions(cards, multiset(h));
    assert |multiset(h)| == 5 && |Pick(cards, idx)| == |multiset(Pick(cards, idx))|;
    f := Choice(idx[0], idx[1], idx[2], idx[3], idx[4]);
    assert idx == Positions(f);
    ScoreIgnoresOrder(h, HandAt(cards, f));
  }

  lemma {:induction false} PickedIsBag(cards: seq<Card>, idx: seq<nat>)
    requires Ascending(idx, |cards|)
    ensures multiset(Pick(cards, idx)) <= multiset(cards)
  {
    if |idx| > 0 {
      var m := |idx| - 1;
      LastBag(cards);
      LastBag(Pick(cards, idx));
      var k := idx[m];
      PickedIsBag(cards[..k], idx[..m]);
      assert Pick(cards, idx)[..m] == Pick(cards[..k], idx[..m]);
      assert cards == cards[..k] + ([cards[k]] + cards[k + 1..]);
    }
  }

  lemma ChoiceIsHand(cards: seq<Card>, f: Choice)
    requires |cards| == 7 && Increasing(f)
    ensures FiveOf(HandAt(cards, f), cards)
  {
    PickedIsBag(cards, Positions(f));
  }

  lemma BestOfAllChoices(cards: seq<Card>, best: HandScore, f: Choice)
    requires |cards| == 7 && Scores(cards, f, best)
    requires forall g, r | Increasing(g) && Scores(cards, g, r) :: Compare(best, r) >= 0
    ensures IsBest(cards, best)
  {
    ScoresMeans(cards, f, best);
    ChoiceIsHand(cards, f);
    forall h: seq<Card> | FiveOf(h, cards) ensures Compare(best, EvaluateFive(h)) >= 0 {
      var g := HandIsChoice(cards, h);
      ScoresMeans(cards, g, ScoreAt(cards, g));
    }
  }

  lemma AllVisited(visited: seq<Choice>)
    requires VisitedBelow(visited, Choice(3, 0, 0, 0, 0))
    ensures forall f :: f in visited <==> Increasing(f)
    ensures Distinct(visited) && visited != []
  {
    assert forall f | Increasing(f) :: Less(f, Choice(3, 0, 0, 0, 0));
    assert Increasing(Choice(0, 1, 2, 3, 4));
    assert Choice(0, 1, 2, 3, 4) in visited;
  }

  /** Once every choice is tried, the best so far is the best of seven. */
  lemma TriedAll(cards: seq<Card>, visited: seq<Choice>, best: Option<HandScore>)
    requires |cards| == 7 && Tried(cards, visited, best, Choice(3, 0, 0, 0, 0))
    ensures best.Some? && IsBest(cards, best.value)
    ensures Distinct(visited) && forall f :: f in visited <==> Increasing(f)
  {
    assert VisitedBelow(visited, Choice(3, 0, 0, 0, 0)) && BestFacts(cards, visited, best) by {
      assert Open(TriedSeal, 0);
      assert Open(BestSoFarSeal, 0);
    }
    AllVisited(visited);
    var f :| f in visited && Scores(cards, f, best.value);
    BestOfAllChoices(cards, best.value, f);
  }

  datatype EvaluationError = WrongCount(count: nat) | DuplicateCard(card: Card)

  /** Refuses anything but seven different cards, then scores them. */
  method EvaluateSeven(cards: seq<Card>) returns (r: Result<HandScore, EvaluationError>)
    ensures r.Ok? <==> |cards| == 7 && Distinct(cards)
    ensures r.Ok? ==> r.value == BestOfSeven(cards)
    ensures |cards| != 7 ==> r == Err(WrongCount(|cards|))
  {
    if |cards| != 7 {
      return Err(WrongCount(|cards|));
    }
    var validated := ValidateDeck(cards);
    if validated.Err? {
      return Err(DuplicateCard(validated.error));
    }
    var best, _ := SearchSeven(cards);
    return Ok(best);
  }

  /** Tries each of the 21 five-card choices exactly once and keeps the best score. */
  method SearchSeven(cards: seq<Card>) returns (r: HandScore, ghost visited: seq<Choice>)
    requires |cards| == 7
    ensures r == BestOfSeven(cards)
    ensures Distinct(visited) && forall f :: f in visited <==> Increasing(f)
  {
    var best;
    best, visited := SearchAll(cards);
    TriedAll(cards, visited, best);
    r := best.value;
    BestOfSevenIsBest(cards);
    BestIsUnique(cards, r, BestOfSeven(cards));
  }

  /** The outermost loop. */
  method SearchAll(cards: seq<Card>) returns (best: Option<HandScore>, ghost visited: seq<Choice>)
    requires |cards| == 7
    ensures Tried(cards, visited, best, Choice(3, 0, 0, 0, 0))
  {
    visited := [];
    best := None;
    TriedNone(cards);
    var first := 0;
    while first < 3
      invariant 0 <= first <= 3 && Tried(cards, visited, best, Choice(first, 0, 0, 0, 0))
    {
      best, visited := SearchFrom(cards, first, best, visited);
      first := first + 1;
    }
  }

  /** The four inner loops, for one value of the outermost index. */
  method SearchFrom(cards: seq<Card>, first: int, best0: Option<HandScore>, ghost visited0: seq<Choice>)
    returns (best: Option<HandScore>, ghost visited: seq<Choice>)
    requires |cards| == 7 && 0 <= first < 3 && Tried(cards, visited0, best0, Choice(first, 0, 0, 0, 0))
    ensures Tried(cards, visited, best, Choice(first + 1, 0, 0, 0, 0))
  {
    best, visited := best0, visited0;
    var second := first + 1;
    EnterSecond(cards, visited, best, first);
    while second < 4
      invariant first < second <= 4 && Tried(cards, visited, best, Choice(first, second, 0, 0, 0))
    {
      var third := second + 1;
      EnterThird(cards, visited, best, first, second);
      while third < 5
        invariant second < third <= 5 && Tried(cards, visited, best, Choice(first, second, third, 0, 0))
      {
        var fourth := third + 1;
        EnterFourth(cards, visited, best, first, second, third);
        while fourth < 6
          invariant third < fourth <= 6 && Tried(cards, visited, best, Choice(first, second, third, fourth, 0))
        {
          best, visited := SearchLast(cards, first, second, third, fourth, best, visited);
          fourth := fourth + 1;
        }
        LeaveFourth(cards, visited, best, first, second, third);
        third := third + 1;
      }
      LeaveThird(cards, visited, best, first, second);
      second := second + 1;
    }
    LeaveSecond(cards, visited, best, first);
  }

  /** The innermost loop. */
  method SearchLast(cards: seq<Card>, first: int, second: int, third: int, fourth: int,
                    best0: Option<HandScore>, ghost visited0: seq<Choice>)
    returns (best: Option<HandScore>, ghost visited: seq<Choice>)
    requires |cards| == 7 && 0 <= first < second < third < fourth < 6
    requires Tried(cards, visited0, best0, Choice(first, second, third, fourth, 0))
    ensures Tried(cards, visited, best, Choice(first, second, third, fourth + 1, 0))
  {
    best, visited := best0, visited0;
    var fifth := fourth + 1;
    EnterFifth(cards, visited, best, first, second, third, fourth);
    while fifth < 7
      invariant fourth < fifth <= 7 && Tried(cards, visited, best, Choice(first, second, third, fourth, fifth))
    {
      var current := ScoreHand(cards, first, second, third, fourth, fifth);
      ghost var f := Choice(first, second, third, fourth, fifth);
      TriedStep(cards, visited, best, f, current);
      if best.None? || Compare(current, best.value) > 0 {
        best := Some(current);
      }
      visited := visited + [f];
      fifth := fifth + 1;
    }
    LeaveFifth(cards, visited, best, first, second, third, fourth);
  }

  method ScoreHand(cards: seq<Card>, first: int, second: int, third: int, fourth: int, fifth: int)
    returns (r: HandScore)
    requires |cards| == 7 && Increasing(Choice(first, second, third, fourth, fifth))
    ensures Scores(cards, Choice(first, second, third, fourth, fifth), r)
  {
    var hand := [cards[first], cards[second], cards[third], cards[fourth], cards[fifth]];
    assert hand == HandAt(cards, Choice(first, second, third, fourth, fifth));
    r := EvaluateFive(hand);
  }
}

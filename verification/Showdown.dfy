/** Comparing hands at the showdown and paying out, as the loops do it. */
module Showdown {
  import opened Cards
  import opened Evaluator
  import opened HandRanking
  import opened Pots
  import opened Sealing
  import opened Sequences
  import opened SevenCards
  import opened Table
  import opened Wrappers

  // ---- Finding the winners of a pot ----

  lemma {:induction false} TopIdsAgree(ids: seq<PlayerId>, a: seq<PlayerId>, b: seq<PlayerId>,
                                       score: PlayerId -> HandScore)
    requires forall id | id in ids :: BeatenByNone(id, a, score) == BeatenByNone(id, b, score)
    ensures TopIds(ids, a, score) == TopIds(ids, b, score)
  {
    if |ids| > 0 {
      assert ids[|ids| - 1] in ids;
      TopIdsAgree(ids[..|ids| - 1], a, b, score);
    }
  }

  lemma {:induction false} TopIdsNone(ids: seq<PlayerId>, against: seq<PlayerId>, score: PlayerId -> HandScore)
    requires forall id | id in ids :: !BeatenByNone(id, against, score)
    ensures TopIds(ids, against, score) == []
  {
    if |ids| > 0 {
      assert ids[|ids| - 1] in ids;
      TopIdsNone(ids[..|ids| - 1], against, score);
    }
  }

  /** best is the highest score among the ids. */
  ghost predicate Highest(ids: seq<PlayerId>, best: HandScore, score: PlayerId -> HandScore) {
    && (exists id :: id in ids && best == score(id))
    && (forall id | id in ids :: Compare(best, score(id)) >= 0)
  }

  lemma BeatenByNoneIn(id: PlayerId, ids: seq<PlayerId>, score: PlayerId -> HandScore)
    ensures BeatenByNone(id, ids, score) <==> forall other | other in ids :: Compare(score(id), score(other)) >= 0
  {
    if BeatenByNone(id, ids, score) {
      forall other | other in ids ensures Compare(score(id), score(other)) >= 0 {
        var k :| 0 <= k < |ids| && ids[k] == other;
      }
    } else {
      var k :| 0 <= k < |ids| && !(Compare(score(id), score(ids[k])) >= 0);
      assert ids[k] in ids;
    }
  }

  /** Being beaten by none means levelling with the highest score. */
  lemma TopMeansLevel(id: PlayerId, ids: seq<PlayerId>, best: HandScore, score: PlayerId -> HandScore)
    requires Highest(ids, best, score)
    ensures BeatenByNone(id, ids, score) <==> Compare(score(id), best) >= 0
  {
    BeatenByNoneIn(id, ids, score);
    if Compare(score(id), best) >= 0 {
      forall other | other in ids ensures Compare(score(id), score(other)) >= 0 {
        CompareTransitive(score(id), best, score(other));
      }
    }
  }

  lemma HighestWith(ids: seq<PlayerId>, id: PlayerId, best: HandScore, score: PlayerId -> HandScore)
    requires Highest(ids, best, score)
    ensures Highest(ids + [id], if Compare(score(id), best) > 0 then score(id) else best, score)
  {
    CompareTotal(score(id), best);
    CompareTotal(score(id), score(id));
    var r := if Compare(score(id), best) > 0 then score(id) else best;
    assert id in ids + [id];
    forall other | other in ids + [id] ensures Compare(r, score(other)) >= 0 {
      if other in ids && Compare(score(id), best) > 0 {
        CompareTransitive(score(id), best, score(other));
      }
    }
    var top :| top in ids && best == score(top);
    assert top in ids + [id];
  }

  lemma BestOfAppend(ids: seq<PlayerId>, id: PlayerId, score: PlayerId -> HandScore)
    ensures BestOf(ids + [id], score)
            == TopIds(ids, ids + [id], score) + (if BeatenByNone(id, ids + [id], score) then [id] else [])
  {
    assert (ids + [id])[..|ids|] == ids;
  }

  /** One more id either takes over, joins, or changes nothing, as its score compares with the best so far. */
  lemma BestOfWith(ids: seq<PlayerId>, id: PlayerId, best: HandScore, score: PlayerId -> HandScore)
    requires Highest(ids, best, score)
    ensures BestOf(ids + [id], score)
            == if Compare(score(id), best) > 0 then [id]
               else if Compare(score(id), best) == 0 then BestOf(ids, score) + [id]
               else BestOf(ids, score)
  {
    var all := ids + [id];
    var r := if Compare(score(id), best) > 0 then score(id) else best;
    HighestWith(ids, id, best, score);
    BestOfAppend(ids, id, score);
    CompareTotal(score(id), best);
    CompareTotal(score(id), score(id));
    TopMeansLevel(id, all, r, score);
    forall other | other in ids
      ensures BeatenByNone(other, all, score) <==> Compare(score(other), r) >= 0
      ensures BeatenByNone(other, ids, score) <==> Compare(score(other), best) >= 0
      ensures Compare(score(id), best) > 0 ==> !BeatenByNone(other, all, score)
    {
      TopMeansLevel(other, all, r, score);
      TopMeansLevel(other, ids, best, score);
      CompareTotal(score(other), best);
      CompareTotal(score(other), score(id));
      if Compare(score(id), best) > 0 && Compare(score(other), score(id)) >= 0 {
        CompareTransitive(best, score(other), score(id));
      }
    }
    if Compare(score(id), best) > 0 {
      TopIdsNone(ids, all, score);
    } else {
      TopIdsAgree(ids, all, ids, score);
    }
  }

  lemma BestOfOne(id: PlayerId, score: PlayerId -> HandScore)
    ensures BestOf([id], score) == [id] && Highest([id], score(id), score)
  {
    CompareTotal(score(id), score(id));
    assert id in [id];
    assert BeatenByNone(id, [id], score);
    assert TopIds([id][..0], [id], score) == [];
  }

  /** The scan so far: the highest score seen, and everyone who holds it. */
  ghost predicate LeadingFacts(seen: seq<PlayerId>, best: Option<HandScore>, winners: seq<PlayerId>,
                               score: PlayerId -> HandScore)
  {
    && (seen == [] <==> best.None?)
    && (best.Some? ==> Highest(seen, best.value, score))
    && winners == BestOf(seen, score)
  }

  ghost predicate Leading(seen: seq<PlayerId>, best: Option<HandScore>, winners: seq<PlayerId>,
                          score: PlayerId -> HandScore)
  {
    forall k {:trigger Open(LeadingSeal, k)} :: Open(LeadingSeal, k) ==> LeadingFacts(seen, best, winners, score)
  }

  lemma LeadingNone(score: PlayerId -> HandScore)
    ensures Leading([], None, [], score)
  {
  }

  lemma LeadingAll(seen: seq<PlayerId>, best: Option<HandScore>, winners: seq<PlayerId>, score: PlayerId -> HandScore)
    requires Leading(seen, best, winners, score)
    ensures winners == BestOf(seen, score)
  {
    assert Open(LeadingSeal, 0);
  }

  /** One step of the scan. */
  method Consider(best0: Option<HandScore>, winners0: seq<PlayerId>, id: PlayerId, current: HandScore,
                  ghost seen: seq<PlayerId>, ghost score: PlayerId -> HandScore)
    returns (best: Option<HandScore>, winners: seq<PlayerId>)
    requires Leading(seen, best0, winners0, score) && current == score(id)
    ensures Leading(seen + [id], best, winners, score)
  {
    assert Open(LeadingSeal, 0);
    best, winners := best0, winners0;
    if best.None? {
      BestOfOne(id, score);
      assert seen + [id] == [id];
      best, winners := Some(current), [id];
    } else {
      var comparison := CompareHands(current, best.value);
      BestOfWith(seen, id, best.value, score);
      HighestWith(seen, id, best.value, score);
      if comparison > 0 {
        best, winners := Some(current), [id];
      } else if comparison == 0 {
        winners := winners + [id];
      }
    }
  }

  lemma {:induction false} FirstUnshowableIn(s: State, ids: seq<PlayerId>, k: nat)
    requires k < |ids| && forall i | 0 <= i < k :: Showable(s, ids[i])
    ensures !Showable(s, ids[k]) ==> FirstUnshowable(s, ids) == Some(ids[k])
  {
    if k > 0 {
      FirstUnshowableIn(s, ids[1..], k - 1);
    }
  }

  lemma {:induction false} AllShowable(s: State, ids: seq<PlayerId>)
    requires forall i | 0 <= i < |ids| :: Showable(s, ids[i])
    ensures FirstUnshowable(s, ids).None?
  {
    if |ids| > 0 {
      AllShowable(s, ids[1..]);
    }
  }

  lemma SliceStep(ids: seq<PlayerId>, k: nat)
    requires k < |ids|
    ensures ids[..k + 1] == ids[..k] + [ids[k]]
  {
  }

  /** Keeps the best score seen and those who hold it; fails at the first hand that cannot be scored. */
  method BestIds(s: State, eligible: seq<PlayerId>) returns (r: Result<seq<PlayerId>, SettleError>)
    ensures r == match FirstUnshowable(s, eligible)
                 case Some(id) => Err(CannotEvaluate(id))
                 case None => Ok(BestOf(eligible, ShowdownScore(s)))
  {
    var best: Option<HandScore> := None;
    var winners: seq<PlayerId> := [];
    LeadingNone(ShowdownScore(s));
    assert eligible[..0] == [];
    for k := 0 to |eligible|
      invariant Leading(eligible[..k], best, winners, ShowdownScore(s))
      invariant forall i | 0 <= i < k :: Showable(s, eligible[i])
    {
      var current := ScoreFor(s, eligible[k]);
      if current.None? {
        FirstUnshowableIn(s, eligible, k);
        return Err(CannotEvaluate(eligible[k]));
      }
      best, winners := Consider(best, winners, eligible[k], current.value, eligible[..k], ShowdownScore(s));
      SliceStep(eligible, k);
    }
    AllShowable(s, eligible);
    assert eligible[..|eligible|] == eligible;
    LeadingAll(eligible, best, winners, ShowdownScore(s));
    return Ok(winners);
  }

  method ScoreFor(s: State, id: PlayerId) returns (r: Option<HandScore>)
    ensures r.Some? <==> Showable(s, id)
    ensures r.Some? ==> r.value == ShowdownScore(s)(id)
  {
    if id !in s.holeCards || |s.holeCards[id]| != 2 || |s.board| != 5 {
      return None;
    }
    var score := EvaluateSeven(s.holeCards[id] + s.board);
    return if score.Ok? then Some(score.value) else None;
  }

  // ---- Paying ----

  /** Adds one pot's shares and odd chips to the payouts. */
  method PayPot(payouts0: map<PlayerId, int>, amount: int, winners: seq<PlayerId>, order: seq<PlayerId>)
    returns (payouts: map<PlayerId, int>)
    requires |winners| > 0 && |order| == |winners|
    requires Distinct(winners) && Distinct(order)
    ensures forall id :: Owed(payouts, id) == Owed(payouts0, id) + Award(amount, winners, order, id)
  {
    payouts := payouts0;
    var share := amount / |winners|;
    for k := 0 to |winners|
      invariant forall id :: Owed(payouts, id) == Owed(payouts0, id) + (if id in winners[..k] then share else 0)
    {
      SliceStep(winners, k);
      assert winners[k] !in winners[..k];
      payouts := payouts[winners[k] := Owed(payouts, winners[k]) + share];
    }
    assert winners[..|winners|] == winners;
    ghost var shared := payouts;
    for chip := 0 to amount % |winners|
      invariant forall id :: Owed(payouts, id) == Owed(shared, id) + (if id in order[..chip] then 1 else 0)
    {
      SliceStep(order, chip);
      assert order[chip] !in order[..chip];
      payouts := payouts[order[chip] := Owed(payouts, order[chip]) + 1];
    }
  }

  // ---- Lists of ids without repetition ----

  lemma {:induction false} IdsDistinct(ps: seq<Player>, f: Player -> bool)
    requires UniqueIds(ps)
    ensures Distinct(IdsOf(ps, f))
  {
    if |ps| > 0 {
      var n := |ps| - 1;
      IdsDistinct(ps[..n], f);
      assert ps[n].id !in IdsOf(ps[..n], f) by {
        assert forall i | 0 <= i < n :: ps[..n][i].id != ps[n].id;
      }
    }
  }

  lemma {:induction false} TopIdsDistinct(ids: seq<PlayerId>, against: seq<PlayerId>, score: PlayerId -> HandScore)
    requires Distinct(ids)
    ensures Distinct(TopIds(ids, against, score))
  {
    if |ids| > 0 {
      var n := |ids| - 1;
      TopIdsDistinct(ids[..n], against, score);
      assert ids[n] !in ids[..n];
    }
  }

  lemma {:induction false} InsertByDistinct(id: PlayerId, ids: seq<PlayerId>, key: PlayerId -> int)
    requires SortedBy(ids, key) && Distinct(ids) && id !in ids
    ensures Distinct(InsertBy(id, ids, key))
  {
    if |ids| > 0 && key(id) >= key(ids[0]) {
      InsertByDistinct(id, ids[1..], key);
      assert ids[0] !in ids[1..];
      assert ids[0] !in InsertBy(id, ids[1..], key);
    }
  }

  lemma {:induction false} SortByDistinct(ids: seq<PlayerId>, key: PlayerId -> int)
    requires Distinct(ids)
    ensures Distinct(SortBy(ids, key))
  {
    if |ids| > 0 {
      var n := |ids| - 1;
      SortByDistinct(ids[..n], key);
      assert ids[n] !in ids[..n];
      InsertByDistinct(ids[n], SortBy(ids[..n], key), key);
    }
  }

  /** Somebody always holds the highest score. */
  lemma {:induction false} SomeoneIsBest(ids: seq<PlayerId>, score: PlayerId -> HandScore) returns (best: HandScore)
    requires |ids| > 0
    ensures Highest(ids, best, score)
  {
    var n := |ids| - 1;
    assert ids == ids[..n] + [ids[n]];
    if n == 0 {
      BestOfOne(ids[0], score);
      assert ids == [ids[0]];
      best := score(ids[0]);
    } else {
      var before := SomeoneIsBest(ids[..n], score);
      HighestWith(ids[..n], ids[n], before, score);
      best := if Compare(score(ids[n]), before) > 0 then score(ids[n]) else before;
    }
  }

  lemma BestOfNonempty(ids: seq<PlayerId>, score: PlayerId -> HandScore)
    requires |ids| > 0
    ensures |BestOf(ids, score)| > 0
  {
    var best := SomeoneIsBest(ids, score);
    var id :| id in ids && best == score(id);
    CompareTotal(best, best);
    TopMeansLevel(id, ids, best, score);
    assert id in BestOf(ids, score);
  }

  lemma WinnersFacts(pot: Pot, score: PlayerId -> HandScore)
    requires |pot.eligible| > 0
    ensures |WinnersOf(pot, score)| > 0
    ensures Distinct(pot.eligible) ==> Distinct(WinnersOf(pot, score))
    ensures forall id | id in WinnersOf(pot, score) :: id in pot.eligible
  {
    BestOfNonempty(pot.eligible, score);
    if Distinct(pot.eligible) {
      TopIdsDistinct(pot.eligible, pot.eligible, score);
    }
  }

  // ---- Settlement ----

  predicate DistinctPots(pots: seq<Pot>) {
    forall k | 0 <= k < |pots| :: Distinct(pots[k].eligible)
  }

  lemma {:induction false} PotsAreDistinct(ps: seq<Player>, levels: seq<int>, k: nat)
    requires UniqueIds(ps) && k <= |levels|
    ensures DistinctPots(PotsTo(ps, levels, k))
  {
    if k > 0 {
      PotsAreDistinct(ps, levels, k - 1);
      IdsDistinct(ps, EligibleAt(levels[k - 1]));
    }
  }

  /** The winners of one pot, or why they cannot be found. */
  method PotWinners(s: State, pot: Pot) returns (r: Result<seq<PlayerId>, SettleError>)
    ensures PotFault(s, [pot]).Some? ==> r == Err(PotFault(s, [pot]).value)
    ensures PotFault(s, [pot]).None? ==> r == Ok(WinnersOf(pot, ShowdownScore(s))) && |pot.eligible| > 0
  {
    assert [pot][1..] == [];
    if |pot.eligible| == 0 {
      return Err(NoEligiblePlayer);
    }
    if |pot.eligible| == 1 {
      return Ok(pot.eligible);
    }
    r := BestIds(s, pot.eligible);
  }

  lemma {:induction false} FaultAt(s: State, pots: seq<Pot>, k: nat)
    requires k < |pots| && forall i | 0 <= i < k :: PotFault(s, [pots[i]]).None?
    ensures PotFault(s, [pots[k]]).Some? ==> PotFault(s, pots) == PotFault(s, [pots[k]])
  {
    assert [pots[0]][1..] == [];
    if k > 0 {
      assert PotFault(s, [pots[0]]).None?;
      FaultAt(s, pots[1..], k - 1);
    }
  }

  lemma {:induction false} NoFault(s: State, pots: seq<Pot>)
    requires forall i | 0 <= i < |pots| :: PotFault(s, [pots[i]]).None?
    ensures PotFault(s, pots).None?
  {
    if |pots| > 0 {
      assert [pots[0]][1..] == [];
      assert PotFault(s, [pots[0]]).None?;
      NoFault(s, pots[1..]);
    }
  }

  method PayOne(s: State, pot: Pot, payouts0: map<PlayerId, int>) returns (r: Result<map<PlayerId, int>, SettleError>)
    requires forall i | 0 <= i < |s.players| :: s.players[i].seat >= 0
    requires Distinct(pot.eligible)
    ensures PotFault(s, [pot]).Some? ==> r == Err(PotFault(s, [pot]).value)
    ensures PotFault(s, [pot]).None? ==> r.Ok?
    ensures r.Ok? ==>
              forall id :: Owed(r.value, id) == Owed(payouts0, id)
                           + PotPays(pot, ShowdownScore(s), ClockDistance(s.players, s.buttonSeat), id)
  {
    var found := PotWinners(s, pot);
    if found.Err? {
      return Err(found.error);
    }
    var winners := found.value;
    var order := SortBy(winners, ClockDistance(s.players, s.buttonSeat));
    WinnersFacts(pot, ShowdownScore(s));
    SortByDistinct(winners, ClockDistance(s.players, s.buttonSeat));
    var payouts := PayPot(payouts0, pot.amount, winners, order);
    r := Ok(payouts);
  }

  /** m is start with the payments of these pots added. */
  ghost predicate PaidOut(m: map<PlayerId, int>, start: map<PlayerId, int>, pots: seq<Pot>,
                          score: PlayerId -> HandScore, key: PlayerId -> int)
  {
    forall k {:trigger Open(PaidOutSeal, k)} :: Open(PaidOutSeal, k) ==>
                                     forall id :: Owed(m, id) == Owed(start, id) + PotsPay(pots, score, key, id)
  }

  lemma PaidNothing(m: map<PlayerId, int>, score: PlayerId -> HandScore, key: PlayerId -> int)
    ensures PaidOut(m, m, [], score, key)
  {
  }

  /** Adding one more pot to what the pots pay. */
  lemma PaidStep(start: map<PlayerId, int>, m: map<PlayerId, int>, n: map<PlayerId, int>, pots: seq<Pot>, pot: Pot,
                 score: PlayerId -> HandScore, key: PlayerId -> int)
    requires PaidOut(m, start, pots, score, key)
    requires forall id :: Owed(n, id) == Owed(m, id) + PotPays(pot, score, key, id)
    ensures PaidOut(n, start, pots + [pot], score, key)
  {
    assert Open(PaidOutSeal, 0);
    forall id ensures PotsPay(pots + [pot], score, key, id)
                      == PotsPay(pots, score, key, id) + PotPays(pot, score, key, id)
    {
      SumAppend(pots, pot, PaysFrom(score, key, id));
    }
  }

  lemma PaidAll(m: map<PlayerId, int>, start: map<PlayerId, int>, pots: seq<Pot>, score: PlayerId -> HandScore,
                key: PlayerId -> int)
    requires PaidOut(m, start, pots, score, key)
    ensures forall id :: Owed(m, id) == Owed(start, id) + PotsPay(pots, score, key, id)
  {
    assert Open(PaidOutSeal, 0);
  }

  /** The payouts so far are those of the given pots at this showdown. */
  ghost predicate PaidFor(s: State, m: map<PlayerId, int>, start: map<PlayerId, int>, pots: seq<Pot>)
    requires forall i | 0 <= i < |s.players| :: s.players[i].seat >= 0
  {
    forall k {:trigger Open(PaidForSeal, k)} :: Open(PaidForSeal, k) ==>
                                     PaidOut(m, start, pots, ShowdownScore(s), ClockDistance(s.players, s.buttonSeat))
  }

  lemma PaidForNothing(s: State, m: map<PlayerId, int>)
    requires forall i | 0 <= i < |s.players| :: s.players[i].seat >= 0
    ensures PaidFor(s, m, m, [])
  {
    PaidNothing(m, ShowdownScore(s), ClockDistance(s.players, s.buttonSeat));
  }

  /** One turn of the loop over the pots. */
  method PayNext(s: State, pots: seq<Pot>, k: nat, payouts: map<PlayerId, int>, ghost start: map<PlayerId, int>)
    returns (r: Result<map<PlayerId, int>, SettleError>)
    requires forall i | 0 <= i < |s.players| :: s.players[i].seat >= 0
    requires k < |pots| && Distinct(pots[k].eligible)
    requires PaidFor(s, payouts, start, pots[..k])
    ensures PotFault(s, [pots[k]]).Some? ==> r == Err(PotFault(s, [pots[k]]).value)
    ensures PotFault(s, [pots[k]]).None? ==> r.Ok?
    ensures r.Ok? ==> PaidFor(s, r.value, start, pots[..k + 1])
  {
    assert Open(PaidForSeal, 0);
    r := PayOne(s, pots[k], payouts);
    if r.Ok? {
      PaidStep(start, payouts, r.value, pots[..k], pots[k], ShowdownScore(s), ClockDistance(s.players, s.buttonSeat));
      assert pots[..k + 1] == pots[..k] + [pots[k]];
    }
  }

  /** Pays pot after pot; the first pot without an eligible player or with a hand that cannot be scored stops it. */
  method PayPots(s: State, pots: seq<Pot>, payouts0: map<PlayerId, int>)
    returns (r: Result<map<PlayerId, int>, SettleError>)
    requires forall i | 0 <= i < |s.players| :: s.players[i].seat >= 0
    requires DistinctPots(pots)
    ensures PotFault(s, pots).Some? ==> r == Err(PotFault(s, pots).value)
    ensures PotFault(s, pots).None? ==> r.Ok?
    ensures r.Ok? ==> PaidFor(s, r.value, payouts0, pots)
  {
    var payouts := payouts0;
    PaidForNothing(s, payouts0);
    assert pots[..0] == [];
    for k := 0 to |pots|
      invariant forall i | 0 <= i < k :: PotFault(s, [pots[i]]).None?
      invariant PaidFor(s, payouts, payouts0, pots[..k])
    {
      var next := PayNext(s, pots, k, payouts, payouts0);
      FaultAt(s, pots, k);
      if next.Err? {
        return Err(next.error);
      }
      payouts := next.value;
    }
    NoFault(s, pots);
    assert pots[..|pots|] == pots;
    return Ok(payouts);
  }

  /** The payouts as loops over refunds, pots, winners and odd chips compute them, and the new stacks. */
  method SettleShowdown(s: State) returns (r: Result<State, SettleError>)
    requires UniqueIds(s.players) && forall i | 0 <= i < |s.players| :: s.players[i].seat >= 0
    ensures r == Settle(s)
  {
    if s.phase != Complete {
      return Err(HandNotComplete);
    }
    var contenders := IdsOf(s.players, IsContender);
    IdsCounted(s.players, IsContender);
    var t := s;
    if |contenders| > 1 {
      var cut := RunOutBoard(s.board, s.deck);
      if cut.Err? {
        return Err(cut.error);
      }
      t := s.(board := cut.value.board, deck := cut.value.deck);
    }
    var payouts := Payouts(t, contenders);
    if payouts.Err? {
      return Err(payouts.error);
    }
    r := Ok(PayEveryone(t, payouts.value));
  }

  /** Everything to a sole contender; otherwise refunds and pots. */
  method Payouts(t: State, contenders: seq<PlayerId>) returns (r: Result<map<PlayerId, int>, SettleError>)
    requires UniqueIds(t.players) && forall i | 0 <= i < |t.players| :: t.players[i].seat >= 0
    requires contenders == IdsOf(t.players, IsContender)
    ensures SettleFault(t).Some? ==> r == Err(SettleFault(t).value)
    ensures SettleFault(t).None? ==> r.Ok? && forall id :: Owed(r.value, id) == Payout(t, id)
  {
    IdsCounted(t.players, IsContender);
    if |contenders| == 1 {
      var total := SumCommitments(t.players);
      assert forall id :: id in contenders <==> id == contenders[0];
      return Ok(map[contenders[0] := total]);
    }
    var pots, refunds := BuildPots(t.players);
    PotsAreDistinct(t.players, Levels(t.players), |Levels(t.players)|);
    r := PayPots(t, pots, refunds);
    if r.Ok? {
      assert Open(PaidForSeal, 0);
      PaidAll(r.value, refunds, pots, ShowdownScore(t), ClockDistance(t.players, t.buttonSeat));
    }
  }

  method SumCommitments(ps: seq<Player>) returns (total: int)
    ensures total == Sum(ps, HandOf)
  {
    total := 0;
    for k := 0 to |ps|
      invariant total == Sum(ps[..k], HandOf)
    {
      assert ps[..k + 1][..k] == ps[..k];
      total := total + ps[k].handCommitted;
    }
    assert ps[..|ps|] == ps;
  }

  function PayEveryone(t: State, payouts: map<PlayerId, int>): (r: State)
    requires forall i | 0 <= i < |t.players| :: t.players[i].seat >= 0
    ensures (forall id :: Owed(payouts, id) == Payout(t, id)) ==> r == Settled(t)
  {
    var ps := seq(|t.players|, i requires 0 <= i < |t.players| =>
                    Paid(t.players[i], Owed(payouts, t.players[i].id)));
    assert (forall id :: Owed(payouts, id) == Payout(t, id)) ==> ps == Settled(t).players;
    t.(version := t.version + 1, currentBet := 0, acted := [], raiseRights := [], lastActedBet := map[], players := ps)
  }
}

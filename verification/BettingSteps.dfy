/** Every accepted command keeps the betting invariant, so it holds throughout a dealt hand. */
module BettingSteps {
  import opened BettingInvariant
  import opened Numbers
  import opened Reducer
  import opened Sequences
  import opened Table
  import opened Wrappers

  // ---- Decisions that leave the current bet alone: fold, check, call ----

  /** The acting player's record after a decision that does not raise. */
  predicate SettledUp(p: Player, q: Player, bet: int) {
    && q.id == p.id && q.seat == p.seat
    && PlayerOk(q)
    && Carry(q) == Carry(p)
    && p.streetCommitted <= q.streetCommitted <= bet
    && (IsActive(q) ==> q.streetCommitted == bet)
  }

  function AfterPassive(s: State, a: nat, q: Player): State
    requires a < |s.players|
  {
    Recorded(s, a, s.currentBet).(players := s.players[a := q])
  }

  lemma SameIdsKnown(ps: seq<Player>, qs: seq<Player>)
    requires |ps| == |qs| && forall i | 0 <= i < |ps| :: ps[i].id == qs[i].id
    ensures forall id | IsPlayer(ps, id) :: IsPlayer(qs, id)
  {
    forall id | IsPlayer(ps, id) ensures IsPlayer(qs, id) {
      var i :| 0 <= i < |ps| && ps[i].id == id;
      assert qs[i].id == id;
    }
  }

  /** Recording the acting player adds only that player's id to the betting metadata. */
  lemma RecordedKnown(s: State, t: State, a: nat, wager: int)
    requires MetadataKnown(s) && a < |s.players| == |t.players| && 0 <= wager
    requires forall i | 0 <= i < |s.players| :: s.players[i].id == t.players[i].id
    requires t.lastActedBet == s.lastActedBet[s.players[a].id := wager]
    requires forall id | id in t.acted :: id in s.acted || id == s.players[a].id
    ensures forall id | id in t.acted :: IsPlayer(t.players, id)
    ensures forall id | id in t.lastActedBet :: IsPlayer(t.players, id) && 0 <= t.lastActedBet[id]
  {
    SameIdsKnown(s.players, t.players);
    assert IsPlayer(t.players, t.players[a].id);
  }

  lemma PassiveTable(s: State, a: nat, q: Player)
    requires TableOk(s) && LiveAt(s, a) && SettledUp(s.players[a], q, s.currentBet)
    ensures TableOk(AfterPassive(s, a, q))
  {
    var t := AfterPassive(s, a, q);
    assert PlayerOk(s.players[a]);
    RecordedKnown(s, t, a, s.currentBet);
    SameIdsKnown(s.players, t.players);
    var i :| 0 <= i < |s.players| && s.players[i].streetCommitted == s.currentBet;
    assert t.players[i].streetCommitted == s.currentBet;
  }

  lemma PassiveCarry(s: State, a: nat, q: Player)
    requires TableOk(s) && LiveAt(s, a) && SettledUp(s.players[a], q, s.currentBet)
    ensures CarryLevel(AfterPassive(s, a, q).players, Carry(s.players[a]))
  {
  }

  lemma PassiveOrder(s: State, a: nat, q: Player)
    requires TableOk(s) && LiveAt(s, a) && SettledUp(s.players[a], q, s.currentBet)
    ensures MidOrder(AfterPassive(s, a, q), a) && MidUnacted(AfterPassive(s, a, q), a)
  {
    var t := AfterPassive(s, a, q);
    var n := |s.players|;
    assert IsActive(q) ==> Done(t, a);
    forall i | 0 <= i < n && i != a
      ensures Done(t, i) == Done(s, i) && UnactedTop(t, t.players[i]) == UnactedTop(s, s.players[i])
      ensures Gap(n, a, i) == Dist(n, a, i) < Gap(n, a, a)
    {
      assert t.players[i] == s.players[i];
      assert s.players[i].id != s.players[a].id;
    }
    assert !UnactedTop(t, q);
  }

  lemma PassiveRights(s: State, a: nat, q: Player)
    requires TableOk(s) && LiveAt(s, a) && SettledUp(s.players[a], q, s.currentBet)
    ensures RightsMatch(AfterPassive(s, a, q)) && LastMatches(AfterPassive(s, a, q))
  {
    var t := AfterPassive(s, a, q);
    forall i | 0 <= i < |t.players| ensures RightsMatchAt(t, t.players[i]) && LastMatchesAt(t, t.players[i]) {
      assert RightsMatchAt(s, s.players[i]) && LastMatchesAt(s, s.players[i]);
      assert i != a ==> s.players[i].id != s.players[a].id;
    }
  }

  lemma PassiveIsMid(s: State, a: nat, q: Player)
    requires TableOk(s) && LiveAt(s, a) && SettledUp(s.players[a], q, s.currentBet)
    requires TopContender(s.players[a := q], s.currentBet, Carry(s.players[a]))
    ensures Mid(AfterPassive(s, a, q), a, Carry(s.players[a]))
  {
    PassiveTable(s, a, q);
    PassiveCarry(s, a, q);
    PassiveOrder(s, a, q);
    PassiveRights(s, a, q);
  }

  /** A player who tops the betting can fold only when another active player tops it too. */
  lemma FoldLeavesTop(s: State, a: nat)
    requires TableOk(s) && LiveAt(s, a)
    ensures TopContender(s.players[a := s.players[a].(status := Folded)], s.currentBet, Carry(s.players[a]))
  {
    var p := s.players[a];
    var ps := s.players[a := p.(status := Folded)];
    if p.streetCommitted == s.currentBet {
      var i :| 0 <= i < |s.players| && i != a && IsActive(s.players[i]);
      if s.currentBet > 0 {
        assert UnactedTop(s, p);
        assert Dist(|s.players|, a, i) > Dist(|s.players|, a, a);
        assert Done(s, i);
      } else {
        assert PlayerOk(s.players[i]);
      }
      assert Tops(ps[i], s.currentBet, Carry(p));
    } else {
      var i :| 0 <= i < |s.players| && Tops(s.players[i], s.currentBet, Carry(p));
      assert Tops(ps[i], s.currentBet, Carry(p));
    }
  }

  lemma FoldIsMid(s: State, a: nat)
    requires TableOk(s) && LiveAt(s, a)
    ensures Mid(AfterFold(s, a), a, Carry(s.players[a]))
  {
    FoldLeavesTop(s, a);
    assert PlayerOk(s.players[a]);
    PassiveIsMid(s, a, s.players[a].(status := Folded));
  }

  lemma CheckIsMid(s: State, a: nat)
    requires TableOk(s) && LiveAt(s, a) && ToCall(s, s.players[a]) == 0
    ensures Mid(AfterCheck(s, a), a, Carry(s.players[a]))
  {
    assert s.players[a := s.players[a]] == s.players;
    PassiveIsMid(s, a, s.players[a]);
  }

  lemma CallIsMid(s: State, a: nat)
    requires TableOk(s) && LiveAt(s, a) && ToCall(s, s.players[a]) != 0
    ensures Mid(AfterCall(s, a), a, Carry(s.players[a]))
  {
    var p := s.players[a];
    var q := Pay(p, Min(ToCall(s, p), p.stack));
    assert PlayerOk(p);
    var i :| 0 <= i < |s.players| && Tops(s.players[i], s.currentBet, Carry(p));
    assert Tops(s.players[a := q][i], s.currentBet, Carry(p));
    PassiveIsMid(s, a, q);
  }

  // ---- Decisions that set a new current bet: bet and raise ----

  predicate WagerAccepted(s: State, a: nat, action: Action)
    requires a < |s.players|
  {
    (action.Bet? || action.Raise?) && AmountError(s, s.players[a], action).None?
  }

  function Paid(s: State, a: nat, action: Action): Player
    requires a < |s.players| && (action.Bet? || action.Raise?)
  {
    Pay(s.players[a], action.amount - s.players[a].streetCommitted)
  }

  lemma WagerRaisesBet(s: State, a: nat, action: Action)
    requires TableOk(s) && LiveAt(s, a) && WagerAccepted(s, a, action)
    ensures s.currentBet < action.amount
    ensures var q := Paid(s, a, action);
            && PlayerOk(q) && q.streetCommitted == action.amount && Carry(q) == Carry(s.players[a])
            && q.status != Folded && q.id == s.players[a].id && q.seat == a
    ensures 0 <= s.currentBet
  {
    assert PlayerOk(s.players[a]);
    var i :| 0 <= i < |s.players| && s.players[i].streetCommitted == s.currentBet;
    assert PlayerOk(s.players[i]);
  }

  lemma WagerRightsKnown(s: State, a: nat, action: Action)
    requires TableOk(s) && LiveAt(s, a) && WagerAccepted(s, a, action)
    ensures forall id | id in AfterWager(s, a, action).raiseRights :: IsPlayer(AfterWager(s, a, action).players, id)
  {
    var t := AfterWager(s, a, action);
    assert t.players == s.players[a := Paid(s, a, action)];
    SameIdsKnown(s.players, t.players);
    forall id | id in t.raiseRights ensures IsPlayer(t.players, id) {
    }
  }

  lemma WagerMetadata(s: State, a: nat, action: Action)
    requires TableOk(s) && LiveAt(s, a) && WagerAccepted(s, a, action)
    ensures MetadataKnown(AfterWager(s, a, action)) && 0 < AfterWager(s, a, action).minimumRaise
  {
    WagerRaisesBet(s, a, action);
    WagerRightsKnown(s, a, action);
    var t := AfterWager(s, a, action);
    assert t.players == s.players[a := Paid(s, a, action)];
    RecordedKnown(s, t, a, action.amount);
  }

  lemma WagerTable(s: State, a: nat, action: Action)
    requires TableOk(s) && LiveAt(s, a) && WagerAccepted(s, a, action)
    ensures TableOk(AfterWager(s, a, action))
  {
    WagerRaisesBet(s, a, action);
    WagerMetadata(s, a, action);
    var t := AfterWager(s, a, action);
    assert t.players == s.players[a := Paid(s, a, action)];
    assert t.players[a].streetCommitted == t.currentBet;
  }

  lemma WagerCarry(s: State, a: nat, action: Action)
    requires TableOk(s) && LiveAt(s, a) && WagerAccepted(s, a, action)
    ensures var t := AfterWager(s, a, action);
            && CarryLevel(t.players, Carry(s.players[a]))
            && TopContender(t.players, t.currentBet, Carry(s.players[a]))
  {
    WagerRaisesBet(s, a, action);
    var t := AfterWager(s, a, action);
    assert t.players == s.players[a := Paid(s, a, action)];
    assert Tops(t.players[a], t.currentBet, Carry(s.players[a]));
  }

  /** A bet or raise puts every other active player back in debt. */
  lemma WagerOrder(s: State, a: nat, action: Action)
    requires TableOk(s) && LiveAt(s, a) && WagerAccepted(s, a, action)
    ensures MidOrder(AfterWager(s, a, action), a) && MidUnacted(AfterWager(s, a, action), a)
  {
    WagerRaisesBet(s, a, action);
    var t := AfterWager(s, a, action);
    assert t.players == s.players[a := Paid(s, a, action)];
    assert t.players[a].id in t.acted;
    assert Done(t, a);
    forall i | 0 <= i < |t.players| && i != a
      ensures !Done(t, i) && !UnactedTop(t, t.players[i]) && Gap(|t.players|, a, i) < Gap(|t.players|, a, a)
    {
      assert s.players[i].streetCommitted <= s.currentBet;
    }
  }

  lemma FullRaiseRights(s: State, a: nat, action: Action)
    requires TableOk(s) && LiveAt(s, a) && WagerAccepted(s, a, action)
    requires (if action.Bet? then action.amount else action.amount - s.currentBet) >= s.minimumRaise
    ensures RightsMatch(AfterWager(s, a, action)) && LastMatches(AfterWager(s, a, action))
  {
    WagerRaisesBet(s, a, action);
    var t := AfterWager(s, a, action);
    forall i | 0 <= i < |t.players| ensures RightsMatchAt(t, t.players[i]) && LastMatchesAt(t, t.players[i]) {
      IdsOfAt(t.players, OtherActive(s.players[a].id), i);
      assert RightsMatchAt(s, s.players[i]) && LastMatchesAt(s, s.players[i]);
      assert i != a ==> s.players[i].id != s.players[a].id && t.players[i] == s.players[i];
    }
  }

  /** A short raise or short bet is always the raiser's whole stack. */
  lemma ShortWagerIsAllIn(s: State, a: nat, action: Action)
    requires TableOk(s) && LiveAt(s, a) && WagerAccepted(s, a, action)
    requires (if action.Bet? then action.amount else action.amount - s.currentBet) < s.minimumRaise
    ensures Paid(s, a, action).status == AllIn
  {
  }

  lemma ShortRaiseRights(s: State, a: nat, action: Action)
    requires TableOk(s) && LiveAt(s, a) && WagerAccepted(s, a, action)
    requires action.Raise? && action.amount - s.currentBet < s.minimumRaise
    ensures RightsMatch(AfterWager(s, a, action)) && LastMatches(AfterWager(s, a, action))
  {
    WagerRaisesBet(s, a, action);
    ShortWagerIsAllIn(s, a, action);
    var t := AfterWager(s, a, action);
    var base := Recorded(s, a, action.amount);
    forall i | 0 <= i < |t.players| ensures RightsMatchAt(t, t.players[i]) && LastMatchesAt(t, t.players[i]) {
      IdsOfAt(t.players, Reopened(base.raiseRights, base.lastActedBet, action.amount, s.minimumRaise), i);
      assert RightsMatchAt(s, s.players[i]) && LastMatchesAt(s, s.players[i]);
      assert i != a ==> s.players[i].id != s.players[a].id && t.players[i] == s.players[i];
    }
  }

  /** A short bet opens the street for less than a raise, so it gives nobody a right to raise back. */
  lemma ShortBetRights(s: State, a: nat, action: Action)
    requires TableOk(s) && LiveAt(s, a) && WagerAccepted(s, a, action)
    requires action.Bet? && action.amount < s.minimumRaise
    ensures RightsMatch(AfterWager(s, a, action)) && LastMatches(AfterWager(s, a, action))
  {
    WagerRaisesBet(s, a, action);
    ShortWagerIsAllIn(s, a, action);
    var t := AfterWager(s, a, action);
    forall i | 0 <= i < |t.players| ensures RightsMatchAt(t, t.players[i]) && LastMatchesAt(t, t.players[i]) {
      assert RightsMatchAt(s, s.players[i]) && LastMatchesAt(s, s.players[i]);
      assert PlayerOk(s.players[i]);
      assert i != a ==> s.players[i].id != s.players[a].id && t.players[i] == s.players[i];
    }
  }

  lemma WagerIsMid(s: State, a: nat, action: Action)
    requires TableOk(s) && LiveAt(s, a) && WagerAccepted(s, a, action)
    ensures Mid(AfterWager(s, a, action), a, Carry(s.players[a]))
  {
    WagerTable(s, a, action);
    WagerCarry(s, a, action);
    WagerOrder(s, a, action);
    if (if action.Bet? then action.amount else action.amount - s.currentBet) >= s.minimumRaise {
      FullRaiseRights(s, a, action);
    } else if action.Raise? {
      ShortRaiseRights(s, a, action);
    } else {
      ShortBetRights(s, a, action);
    }
  }

  // ---- One command ----

  lemma ActionIsMid(s: State, a: nat, action: Action)
    requires TableOk(s) && LiveAt(s, a) && ActionRefusal(s, s.players[a], action).None?
    ensures Mid(AfterAction(s, a, action), a, Carry(s.players[a]))
    ensures AfterAction(s, a, action).actorId == s.actorId
  {
    match action {
      case Fold => FoldIsMid(s, a);
      case Check => CheckIsMid(s, a);
      case Call => CallIsMid(s, a);
      case _ => WagerIsMid(s, a, action);
    }
  }

  lemma AcceptedSeat(s: State, c: Command)
    requires BettingFacts(s) && Apply(s, c).Accepted?
    ensures s.phase != Complete && LiveAt(s, ActorSeat(s))
    ensures c.playerId == s.actorId
    ensures ActionRefusal(s, s.players[ActorSeat(s)], c.action).None?
    ensures Apply(s, c).transition
            == FinishOrPass(AfterAction(s, ActorSeat(s), c.action), ActorSeat(s), [EventOf(s, ActorSeat(s), c.action)])
  {
  }

  lemma StepKeepsBetting(s: State, c: Command)
    requires BettingFacts(s) && Apply(s, c).Accepted?
    ensures Betting(Apply(s, c).transition.state)
  {
    AcceptedSeat(s, c);
    var a := ActorSeat(s);
    ActionIsMid(s, a, c.action);
    var t := AfterAction(s, a, c.action);
    assert IsPlayer(t.players, t.actorId) by {
      assert t.players[a].id == s.players[a].id;
    }
    FinishIsBetting(t, a, Carry(s.players[a]), [EventOf(s, a, c.action)]);
  }

  /** An accepted command leads from a state of a dealt hand to a state of a dealt hand. */
  lemma CommandKeepsBetting(s: State, c: Command)
    requires Betting(s) && Playable(s) && Apply(s, c).Accepted?
    ensures Betting(Apply(s, c).transition.state)
  {
    Unfold(s);
    StepKeepsBetting(s, c);
  }
}

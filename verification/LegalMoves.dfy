/** The listed legal actions are exactly the commands the reducer accepts. */
module LegalMoves {
  import opened BettingInvariant
  import opened BettingSteps
  import opened Numbers
  import opened Reducer
  import opened Table
  import opened Wrappers

  /** The listing covers the action, with the amount inside the listed range. */
  predicate Lists(moves: seq<LegalAction>, action: Action) {
    match action
    case Fold => MayFold in moves
    case Check => MayCheck in moves
    case Call => exists k :: 0 <= k < |moves| && moves[k].MayCall?
    case Bet(amount) =>
      exists k :: 0 <= k < |moves| && moves[k].MayBet? && moves[k].minAmount <= amount <= moves[k].maxAmount
    case Raise(amount) =>
      exists k :: 0 <= k < |moves| && moves[k].MayRaise? && moves[k].minAmount <= amount <= moves[k].maxAmount
  }

  predicate Accepts(s: State, action: Action)
    requires Playable(s)
  {
    Apply(s, Command(s.actorId, None, action)).Accepted?
  }

  /** The seat to act, as the listing sees it. */
  lemma ListedAt(s: State)
    requires BettingFacts(s) && s.phase != Complete
    ensures var a := ActorSeat(s);
            && a < |s.players|
            && PlayerOk(s.players[a]) && s.players[a].status == Active
            && s.players[a].streetCommitted <= s.currentBet && 0 <= s.currentBet
            && 0 < s.minimumRaise
            && forall action :: Accepts(s, action) <==> ActionRefusal(s, s.players[a], action).None?
  {
    var i :| 0 <= i < |s.players| && s.players[i].streetCommitted == s.currentBet;
    assert PlayerOk(s.players[i]);
    assert PlayerOk(s.players[ActorSeat(s)]);
  }

  lemma MovesAre(s: State, a: nat)
    requires s.phase != Complete && a == ActorSeat(s) && a < |s.players|
    requires PlayerOk(s.players[a]) && s.players[a].status == Active
    requires s.players[a].streetCommitted <= s.currentBet && 0 <= s.currentBet
    ensures var p := s.players[a];
            var moves := LegalActions(s, s.actorId);
            var maximum := p.streetCommitted + p.stack;
            && (MayFold in moves <==> p.streetCommitted < s.currentBet)
            && (MayCheck in moves <==> p.streetCommitted == s.currentBet)
            && (forall m | m in moves && m.MayCall? :: m.amount == Min(s.currentBet - p.streetCommitted, p.stack))
            && (Lists(moves, Call) <==> p.streetCommitted < s.currentBet)
            && (forall amount :: Lists(moves, Bet(amount)) <==>
                  s.currentBet == 0 && Min(s.minimumRaise, maximum) <= amount <= maximum)
            && (forall amount :: Lists(moves, Raise(amount)) <==>
                  s.currentBet != 0 && p.id in s.raiseRights && maximum > s.currentBet
                  && Min(s.currentBet + s.minimumRaise, maximum) <= amount <= maximum)
  {
    var p := s.players[a];
    var moves := LegalActions(s, s.actorId);
    var maximum := p.streetCommitted + p.stack;
    if p.streetCommitted < s.currentBet {
      assert moves[0] == MayFold && moves[1] == MayCall(Min(s.currentBet - p.streetCommitted, p.stack));
    } else {
      assert moves[0] == MayCheck;
    }
    var last := moves[|moves| - 1];
    if s.currentBet == 0 {
      assert last == MayBet(Min(s.minimumRaise, maximum), maximum);
    } else if p.id in s.raiseRights && maximum > s.currentBet {
      assert last == MayRaise(Min(s.currentBet + s.minimumRaise, maximum), maximum);
    }
  }

  /** Everything listed is accepted, with any whole amount in its range; everything accepted is listed,
      except a fold by a player who owes nothing. */
  lemma LegalActionsExact(s: State, action: Action)
    requires Betting(s) && Playable(s) && s.phase != Complete
    ensures Lists(LegalActions(s, s.actorId), action) ==> Accepts(s, action)
    ensures Accepts(s, action) ==>
              || Lists(LegalActions(s, s.actorId), action)
              || (action == Fold && ToCall(s, s.players[ActorSeat(s)]) == 0)
    ensures Accepts(s, Fold)
  {
    Unfold(s);
    ListedAt(s);
    MovesAre(s, ActorSeat(s));
  }

  /** A listed call names the chips that calling moves. */
  lemma ListedCallAmount(s: State, m: LegalAction)
    requires Betting(s) && Playable(s) && s.phase != Complete
    requires m in LegalActions(s, s.actorId) && m.MayCall?
    ensures EventOf(s, ActorSeat(s), Call) == PlayerCalled(s.actorId, m.amount) && m.amount > 0
  {
    Unfold(s);
    ListedAt(s);
    MovesAre(s, ActorSeat(s));
  }

  /** Nobody else, and nobody at all once the hand is complete, has a legal action or an accepted command. */
  lemma NothingLegalOutOfTurn(s: State, c: Command)
    requires Playable(s)
    requires c.playerId != s.actorId || s.phase == Complete
    ensures LegalActions(s, c.playerId) == [] && Apply(s, c).Rejected?
  {
  }

  /** The turn is always with a player who can act and owes a decision: either they have not acted since the last full
      raise, or they are below the current bet. */
  lemma TurnIsOwed(s: State)
    requires Betting(s) && s.phase != Complete
    ensures ActorSeat(s) < |s.players|
    ensures var p := s.players[ActorSeat(s)];
            && p.id == s.actorId && CanAct(p)
            && (p.id !in s.acted || p.streetCommitted < s.currentBet)
  {
    Unfold(s);
    assert PlayerOk(s.players[ActorSeat(s)]);
  }

  /** The cached raise rights are exact: a player may raise if and only if active and either not yet heard from on this
      street or by now facing at least a minimum raise more than the wager last acted on. */
  lemma RaiseRightsExact(s: State, i: nat)
    requires Betting(s) && s.phase != Complete && i < |s.players|
    ensures var p := s.players[i];
            && (p.id in s.raiseRights <==>
                IsActive(p)
                && (p.id in s.lastActedBet ==> s.currentBet - s.lastActedBet[p.id] >= s.minimumRaise))
            && (IsActive(p) && p.id in s.lastActedBet ==> s.lastActedBet[p.id] == p.streetCommitted)
  {
    Unfold(s);
    assert RightsMatchAt(s, s.players[i]) && LastMatchesAt(s, s.players[i]);
  }
}

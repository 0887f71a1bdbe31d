/** What one accepted command does to the table, read off the states before and after it: the chips, the street, the
    turn and the minimum raise. */
module TurnLaws {
  import opened BettingInvariant
  import opened BettingSteps
  import opened LegalMoves
  import opened Numbers
  import opened Reducer
  import opened Sequences
  import opened Table
  import opened Termination
  import opened Wrappers

  /** The bet everyone has to match once the action is made. */
  function BetAfter(s: State, action: Action): int {
    match action
    case Bet(amount) => amount
    case Raise(amount) => amount
    case _ => s.currentBet
  }

  /** What the action costs the player who makes it. */
  function Cost(s: State, p: Player, action: Action): int {
    match action
    case Fold => 0
    case Check => 0
    case Call => Min(s.currentBet - p.streetCommitted, p.stack)
    case Bet(amount) => amount - p.streetCommitted
    case Raise(amount) => amount - p.streetCommitted
  }

  /** What seat i has put in on the street that was being played, whether or not that street is over by now. */
  function PutIn(s: State, t: State, i: nat): int
    requires i < |s.players| && i < |t.players|
  {
    s.players[i].streetCommitted + t.players[i].handCommitted - s.players[i].handCommitted
  }

  // ---- Chips ----

  /** The actor pays the cost of the action out of the stack, folds or goes all in; nobody else moves a chip. */
  predicate ChipsMoved(s: State, t: State, action: Action) {
    var a := ActorSeat(s);
    && a < |s.players| == |t.players|
    && (forall i | 0 <= i < |s.players| && i != a ::
          t.players[i] == s.players[i].(streetCommitted := t.players[i].streetCommitted))
    && var p, q := s.players[a], t.players[a];
    && q == p.(stack := q.stack, streetCommitted := q.streetCommitted, handCommitted := q.handCommitted,
               status := q.status)
    && 0 <= Cost(s, p, action) <= p.stack
    && q.stack == p.stack - Cost(s, p, action)
    && q.handCommitted == p.handCommitted + Cost(s, p, action)
    && q.status == if action.Fold? then Folded else if q.stack == 0 then AllIn else Active
  }

  lemma FinishMovesNoChips(mid: State, a: nat, events: seq<Event>)
    requires |mid.players| > 0 && mid.buttonSeat >= 0
    ensures var t := FinishOrPass(mid, a, events).state;
            && |t.players| == |mid.players|
            && forall i | 0 <= i < |mid.players| ::
                 t.players[i] == mid.players[i].(streetCommitted := t.players[i].streetCommitted)
  {
  }

  /** Before the turn passes: chips moved, the bet as it should be, and the rest of the table as it was. */
  predicate ActionDone(s: State, mid: State, action: Action) {
    && ChipsMoved(s, mid, action)
    && (forall i | 0 <= i < |s.players| :: mid.players[i].streetCommitted == PutIn(s, mid, i))
    && mid.currentBet == BetAfter(s, action) >= s.currentBet
    && mid.phase == s.phase && mid.buttonSeat == s.buttonSeat && mid.bigBlind == s.bigBlind && mid.board == s.board
  }

  lemma WagerMovesChips(s: State, a: nat, action: Action)
    requires TableOk(s) && LiveAt(s, a) && WagerAccepted(s, a, action) && ActorSeat(s) == a
    ensures ActionDone(s, AfterWager(s, a, action), action)
  {
    WagerRaisesBet(s, a, action);
    var t := AfterWager(s, a, action);
    assert t.players == s.players[a := Paid(s, a, action)];
    assert PlayerOk(s.players[a]) && s.players[a].streetCommitted <= s.currentBet;
    OthersStay(s, t, a);
  }

  lemma OthersStay(s: State, t: State, a: nat)
    requires a < |s.players| == |t.players| && t.players == s.players[a := t.players[a]]
    ensures forall i | 0 <= i < |s.players| && i != a ::
              t.players[i] == s.players[i] && t.players[i].streetCommitted == PutIn(s, t, i)
  {
  }

  lemma CallMovesChips(s: State, a: nat)
    requires TableOk(s) && LiveAt(s, a) && ActionRefusal(s, s.players[a], Call).None? && ActorSeat(s) == a
    ensures ActionDone(s, AfterCall(s, a), Call)
  {
    assert PlayerOk(s.players[a]) && s.players[a].streetCommitted <= s.currentBet;
  }

  lemma ActionMovesChips(s: State, a: nat, action: Action)
    requires TableOk(s) && LiveAt(s, a) && ActionRefusal(s, s.players[a], action).None?
    ensures ActionDone(s, AfterAction(s, a, action), action)
  {
    LiveActor(s, a);
    assert PlayerOk(s.players[a]);
    match action {
      case Call => CallMovesChips(s, a);
      case Bet(_) => WagerMovesChips(s, a, action);
      case Raise(_) => WagerMovesChips(s, a, action);
      case _ =>
    }
  }

  /** Every accepted command moves exactly its cost, from the actor's stack to the actor's commitment. */
  lemma CommandMovesChips(s: State, c: Command)
    requires Betting(s) && Playable(s) && Apply(s, c).Accepted?
    ensures ChipsMoved(s, Apply(s, c).transition.state, c.action)
  {
    Unfold(s);
    AcceptedSeat(s, c);
    var a := ActorSeat(s);
    ActionMovesChips(s, a, c.action);
    FinishMovesNoChips(AfterAction(s, a, c.action), a, [EventOf(s, a, c.action)]);
  }

  // ---- The end of the hand, of the street, and the turn ----

  /** At most one contender is left, or at most one player can still act and matches the bet. */
  predicate NothingLeftToDecide(s: State, t: State, action: Action)
    requires |s.players| == |t.players|
  {
    || Count(t.players, IsContender) <= 1
    || (Count(t.players, IsActive) <= 1
        && forall i | 0 <= i < |t.players| && IsActive(t.players[i]) :: PutIn(s, t, i) == BetAfter(s, action))
  }

  /** Two players or more can still act, and each of them has acted and matches the bet. */
  predicate AllHaveAnswered(s: State, t: State, action: Action)
    requires |s.players| == |t.players|
  {
    && Count(t.players, IsActive) >= 2
    && forall i | 0 <= i < |t.players| && IsActive(t.players[i]) :: Answered(s, t, action, i)
  }

  predicate Answered(s: State, t: State, action: Action, i: nat)
    requires i < |s.players| == |t.players|
  {
    && (s.players[i].id == s.actorId || s.players[i].id in s.acted)
    && PutIn(s, t, i) == BetAfter(s, action)
  }

  /** The seat is the nearest clockwise that can act. */
  predicate NearestActive(ps: seq<Player>, from: nat, i: nat)
    requires from < |ps|
  {
    && i < |ps| && IsActive(ps[i])
    && forall j | 0 <= j < |ps| && IsActive(ps[j]) :: Gap(|ps|, from, i) <= Gap(|ps|, from, j)
  }

  /** A street begins: level, nobody heard, everybody free to raise by a big blind, left of the button first. */
  predicate StreetBegins(t: State) {
    && t.currentBet == 0 && t.minimumRaise == t.bigBlind && t.acted == [] && t.lastActedBet == map[]
    && (forall i | 0 <= i < |t.players| :: t.players[i].streetCommitted == 0)
    && (forall i | 0 <= i < |t.players| :: t.players[i].id in t.raiseRights <==> IsActive(t.players[i]))
    && 0 <= t.buttonSeat < |t.players| && NearestActive(t.players, t.buttonSeat, ActorSeat(t))
  }

  /** The street and the turn after a command. */
  predicate TurnTaken(s: State, t: State, events: seq<Event>, action: Action)
    requires |s.players| == |t.players| && ActorSeat(s) < |s.players|
  {
    GoesOn(s, t, events, action, NothingLeftToDecide(s, t, action), AllHaveAnswered(s, t, action))
  }

  predicate GoesOn(s: State, t: State, events: seq<Event>, action: Action, over: bool, answered: bool)
    requires |s.players| == |t.players| && ActorSeat(s) < |s.players|
  {
    if over then t.phase == Complete && t.board == s.board && |events| == 1
    else if answered then
      && StreetsLeft(t.phase) == StreetsLeft(s.phase) - 1
      && |events| == 2 && events[1] == StreetCompleted(t.phase)
      && StreetBegins(t)
    else
      && t.phase == s.phase && t.board == s.board && |events| == 1
      && t.currentBet == BetAfter(s, action)
      && (forall i | 0 <= i < |t.players| :: t.players[i].streetCommitted == PutIn(s, t, i))
      && NearestActive(t.players, ActorSeat(s), ActorSeat(t))
  }

  /** Before the turn passes, a seat is done exactly when it has answered. */
  lemma DoneMeansAnswered(s: State, a: nat, action: Action, i: nat)
    requires TableOk(s) && LiveAt(s, a) && ActionRefusal(s, s.players[a], action).None? && i < |s.players|
    ensures var mid := AfterAction(s, a, action);
            |mid.players| == |s.players| && (Done(mid, i) <==> Answered(s, mid, action, i))
  {
    ActionMovesChips(s, a, action);
    assert s.players[i].streetCommitted <= s.currentBet;
    if i != a {
      assert s.players[i].id != s.players[a].id;
    }
    if action.Bet? || action.Raise? {
      WagerRaisesBet(s, a, action);
    }
  }

  lemma SameTests(s: State, mid: State, t: State, action: Action)
    requires |s.players| == |mid.players| == |t.players|
    requires forall i | 0 <= i < |mid.players| ::
               t.players[i] == mid.players[i].(streetCommitted := t.players[i].streetCommitted)
    ensures NothingLeftToDecide(s, mid, action) == NothingLeftToDecide(s, t, action)
    ensures AllHaveAnswered(s, mid, action) == AllHaveAnswered(s, t, action)
  {
    CountMatches(mid.players, IsContender, t.players, IsContender);
    CountMatches(mid.players, IsActive, t.players, IsActive);
    assert forall i | 0 <= i < |mid.players| :: IsActive(mid.players[i]) == IsActive(t.players[i]);
    assert forall i: nat | i < |mid.players| :: PutIn(s, mid, i) == PutIn(s, t, i);
    assert forall i: nat | i < |mid.players| :: Answered(s, mid, action, i) == Answered(s, t, action, i);
  }

  /** The reducer's two tests, seen from outside. */
  lemma TestsMean(s: State, a: nat, action: Action)
    requires TableOk(s) && LiveAt(s, a) && ActionRefusal(s, s.players[a], action).None?
    ensures var mid := AfterAction(s, a, action);
            && |mid.players| == |s.players|
            && (HandOver(mid) <==> NothingLeftToDecide(s, mid, action))
            && (StreetClosed(mid) <==> AllHaveAnswered(s, mid, action))
  {
    ActionMovesChips(s, a, action);
    forall i: nat | i < |s.players|
      ensures Done(AfterAction(s, a, action), i) <==> Answered(s, AfterAction(s, a, action), action, i)
    {
      DoneMeansAnswered(s, a, action, i);
    }
    TestsAgree(s, AfterAction(s, a, action), action);
  }

  lemma TestsAgree(s: State, mid: State, action: Action)
    requires |mid.players| == |s.players| && mid.currentBet == BetAfter(s, action)
    requires forall i | 0 <= i < |s.players| :: mid.players[i].streetCommitted == PutIn(s, mid, i)
    requires forall i: nat | i < |s.players| :: Done(mid, i) <==> Answered(s, mid, action, i)
    ensures HandOver(mid) <==> NothingLeftToDecide(s, mid, action)
    ensures StreetClosed(mid) <==> AllHaveAnswered(s, mid, action)
  {
  }

  lemma ResetKeeps(qs: seq<Player>)
    requires UniqueIds(qs) && ChipsOk(qs)
    ensures var ps := ResetStreet(qs);
            && UniqueIds(ps)
            && (forall k | 0 <= k < |ps| :: IsActive(ps[k]) ==> ps[k].stack > 0)
            && (forall k | 0 <= k < |ps| :: IsActive(ps[k]) <==> IsActive(qs[k]))
  {
    ActiveHaveChips(qs);
  }

  lemma SomeActive(qs: seq<Player>) returns (i: nat)
    requires Count(qs, IsActive) >= 2
    ensures i < |qs| && IsActive(qs[i])
  {
    CountTwo(qs, IsActive);
    var a, b :| 0 <= a < b < |qs| && IsActive(qs[a]) && IsActive(qs[b]);
    i := a;
  }

  lemma StreetOpens(mid: State)
    requires UniqueIds(mid.players) && ChipsOk(mid.players) && 0 <= mid.buttonSeat < |mid.players|
    requires Count(mid.players, IsActive) >= 2
    ensures StreetBegins(NextStreet(mid))
  {
    var i := SomeActive(mid.players);
    ResetKeeps(mid.players);
    var ps := ResetStreet(mid.players);
    FirstOpens(ps, mid.buttonSeat, i);
    AllMayRaise(ps);
  }

  lemma AllMayRaise(ps: seq<Player>)
    requires UniqueIds(ps)
    ensures forall k | 0 <= k < |ps| :: ps[k].id in IdsOf(ps, IsActive) <==> IsActive(ps[k])
  {
    forall k | 0 <= k < |ps| ensures ps[k].id in IdsOf(ps, IsActive) <==> IsActive(ps[k]) {
      IdsOfAt(ps, IsActive, k);
    }
  }

  /** The next player found is the nearest active one. */
  lemma FirstOpens(ps: seq<Player>, from: nat, i: nat)
    requires UniqueIds(ps) && (forall k | 0 <= k < |ps| :: IsActive(ps[k]) ==> ps[k].stack > 0)
    requires from < |ps| && i < |ps| && IsActive(ps[i])
    ensures var next := NextActive(ps, from);
            next.Some? && NearestActive(ps, from, SeatOf(ps, ps[next.value].id))
  {
    NextSeatNearest(ps, CanAct, from, 1);
    assert CanAct(ps[i]);
    SeatOfUnique(ps, NextActive(ps, from).value);
    assert forall j | 0 <= j < |ps| && IsActive(ps[j]) :: CanAct(ps[j]);
  }

  lemma ActiveHaveChips(ps: seq<Player>)
    requires ChipsOk(ps)
    ensures forall k | 0 <= k < |ps| :: IsActive(ps[k]) ==> ps[k].stack > 0
  {
    forall k | 0 <= k < |ps| ensures IsActive(ps[k]) ==> ps[k].stack > 0 {
      assert PlayerOk(ps[k]);
    }
  }

  lemma TurnPasses(mid: State, a: nat)
    requires TableOk(mid) && a < |mid.players| && !HandOver(mid) && !StreetClosed(mid)
    ensures NearestActive(PassTurn(mid, a).players, a, ActorSeat(PassTurn(mid, a)))
  {
    SomebodyOwes(mid);
    var i :| 0 <= i < |mid.players| && IsActive(mid.players[i]) && !Done(mid, i);
    ActiveHaveChips(mid.players);
    FirstOpens(mid.players, a, i);
  }

  lemma PassedOn(s: State, mid: State, a: nat, action: Action)
    requires TableOk(mid) && ActionDone(s, mid, action) && a == ActorSeat(s)
    requires !HandOver(mid) && !StreetClosed(mid)
    ensures var t := PassTurn(mid, a);
            && t.phase == s.phase && t.board == s.board && t.currentBet == BetAfter(s, action)
            && (forall i | 0 <= i < |t.players| :: t.players[i].streetCommitted == PutIn(s, t, i))
            && NearestActive(t.players, ActorSeat(s), ActorSeat(t))
  {
    TurnPasses(mid, a);
  }

  lemma ClosedOn(mid: State)
    requires TableOk(mid) && mid.phase != Complete && StreetClosed(mid)
    ensures var t := NextStreet(mid);
            StreetBegins(t) && StreetsLeft(t.phase) == StreetsLeft(mid.phase) - 1
  {
    StreetOpens(mid);
  }

  /** The three ways on. */
  lemma WaysOn(s: State, mid: State, a: nat, event: Event, action: Action)
    requires TableOk(mid) && ActionDone(s, mid, action) && s.phase != Complete && a == ActorSeat(s)
    ensures var r := FinishOrPass(mid, a, [event]);
            && |r.state.players| == |s.players|
            && GoesOn(s, r.state, r.events, action, HandOver(mid), StreetClosed(mid))
  {
    if !HandOver(mid) && StreetClosed(mid) {
      ClosedOn(mid);
      assert FinishOrPass(mid, a, [event])
             == Transition(NextStreet(mid), [event, StreetCompleted(NextStreet(mid).phase)]);
    } else if !HandOver(mid) {
      PassedOn(s, mid, a, action);
    }
  }

  lemma FinishTakesTurn(s: State, a: nat, action: Action)
    requires TableOk(s) && LiveAt(s, a) && ActionRefusal(s, s.players[a], action).None? && s.phase != Complete
    requires TableOk(AfterAction(s, a, action))
    ensures var r := FinishOrPass(AfterAction(s, a, action), a, [EventOf(s, a, action)]);
            && |r.state.players| == |s.players| && ActorSeat(s) < |s.players|
            && TurnTaken(s, r.state, r.events, action)
  {
    var mid := AfterAction(s, a, action);
    LiveActor(s, a);
    ActionMovesChips(s, a, action);
    FinishMovesNoChips(mid, a, [EventOf(s, a, action)]);
    SameTests(s, mid, FinishOrPass(mid, a, [EventOf(s, a, action)]).state, action);
    TestsMean(s, a, action);
    WaysOn(s, mid, a, EventOf(s, a, action), action);
  }

  /** After every accepted command: the hand is over if and only if nothing is left to decide or the last street is
      answered; the next street begins if and only if all have answered; otherwise the turn goes to the nearest player
      clockwise who can act. */
  lemma CommandTakesTurn(s: State, c: Command)
    requires Betting(s) && Playable(s) && Apply(s, c).Accepted?
    ensures var r := Apply(s, c).transition;
            && |r.state.players| == |s.players| && ActorSeat(s) < |s.players|
            && TurnTaken(s, r.state, r.events, c.action)
  {
    Unfold(s);
    AcceptedSeat(s, c);
    ActionIsMid(s, ActorSeat(s), c.action);
    FinishTakesTurn(s, ActorSeat(s), c.action);
  }

  // ---- The minimum raise and who has been heard ----

  predicate Wagers(action: Action) { action.Bet? || action.Raise? }

  /** The wager raises by at least the minimum. */
  predicate FullRaise(s: State, action: Action) {
    Wagers(action) && BetAfter(s, action) - s.currentBet >= s.minimumRaise
  }

  lemma ActionSetsMinimum(s: State, a: nat, action: Action)
    requires TableOk(s) && LiveAt(s, a) && ActionRefusal(s, s.players[a], action).None?
    ensures var mid := AfterAction(s, a, action);
            && mid.phase == s.phase
            && mid.minimumRaise == (if FullRaise(s, action) then BetAfter(s, action) - s.currentBet else s.minimumRaise)
            && forall id :: id in mid.acted <==> id == s.actorId || (id in s.acted && !FullRaise(s, action))
  {
  }

  /** While the street lasts, the minimum raise is the size of the last full raise, and a full raise makes everybody
      else owe a decision anew. */
  lemma CommandSetsMinimum(s: State, c: Command)
    requires Betting(s) && Playable(s) && Apply(s, c).Accepted?
    requires Apply(s, c).transition.state.phase == s.phase
    ensures var t := Apply(s, c).transition.state;
            && t.minimumRaise
               == (if FullRaise(s, c.action) then BetAfter(s, c.action) - s.currentBet else s.minimumRaise)
            && forall id :: id in t.acted <==> id == s.actorId || (id in s.acted && !FullRaise(s, c.action))
  {
    Unfold(s);
    AcceptedSeat(s, c);
    ActionSetsMinimum(s, ActorSeat(s), c.action);
    StreetLasts(AfterAction(s, ActorSeat(s), c.action), ActorSeat(s), [EventOf(s, ActorSeat(s), c.action)]);
  }

  lemma StreetLasts(mid: State, a: nat, events: seq<Event>)
    requires |mid.players| > 0 && mid.buttonSeat >= 0 && mid.phase != Complete
    requires FinishOrPass(mid, a, events).state.phase == mid.phase
    ensures FinishOrPass(mid, a, events).state.minimumRaise == mid.minimumRaise
    ensures FinishOrPass(mid, a, events).state.acted == mid.acted
  {
  }

  /** The first event of a command names the actor, what was done, and the chips it took. */
  lemma CommandIsTold(s: State, c: Command)
    requires Betting(s) && Playable(s) && Apply(s, c).Accepted?
    ensures ActorSeat(s) < |s.players| && |Apply(s, c).transition.events| > 0
    ensures var cost := Cost(s, s.players[ActorSeat(s)], c.action);
            Apply(s, c).transition.events[0]
            == match c.action
               case Fold => PlayerFolded(s.actorId)
               case Check => PlayerChecked(s.actorId)
               case Call => PlayerCalled(s.actorId, cost)
               case Bet(amount) => PlayerBet(s.actorId, amount)
               case Raise(amount) => PlayerRaised(s.actorId, amount, FullRaise(s, c.action))
  {
    Unfold(s);
    AcceptedSeat(s, c);
    ListedAt(s);
  }

  // ---- Refusals ----

  /** The kind of wager that is open: a bet while nobody has bet, a raise above the bet by who may still raise. */
  predicate RightKind(s: State, p: Player, action: Action)
    requires Wagers(action)
  {
    if action.Bet? then s.currentBet == 0
    else s.currentBet != 0 && action.amount > s.currentBet && p.id in s.raiseRights
  }

  /** An amount the player does not have, or one below the minimum that is not everything they have. */
  predicate WrongAmount(s: State, p: Player, action: Action)
    requires Wagers(action)
  {
    || !(0 < action.amount <= p.streetCommitted + p.stack)
    || (RightKind(s, p, action)
        && action.amount < s.currentBet + s.minimumRaise && action.amount < p.streetCommitted + p.stack)
  }

  /** Why a command is refused: for its version before all else, then for its player, then for its amount; what is left
      is refused as illegal. Nothing changes: the answer only repeats the version. */
  lemma RefusalReasons(s: State, c: Command)
    requires Betting(s) && Playable(s) && Apply(s, c).Rejected?
    ensures Apply(s, c).version == s.version
    ensures var stale := c.expectedVersion.Some? && c.expectedVersion.value != s.version;
            var code := Apply(s, c).code;
            && (code == StaleVersion <==> stale)
            && (code == NotActor <==> !stale && c.playerId != s.actorId)
            && (code == InvalidAmount <==>
                && !stale && c.playerId == s.actorId && s.phase != Complete && Wagers(c.action)
                && ActorSeat(s) < |s.players| && WrongAmount(s, s.players[ActorSeat(s)], c.action))
  {
    Unfold(s);
    if s.phase != Complete {
      ListedAt(s);
    }
  }

  // ---- Timeouts ----

  /** A timed-out player who owes nothing is checked and stays in the hand; one who owes chips is folded. */
  lemma TimeoutIsFair(s: State)
    requires Betting(s) && Playable(s) && s.phase != Complete
    ensures ResolveTimeout(s).Resolved? && ActorSeat(s) < |s.players|
    ensures var a, r := ActorSeat(s), ResolveTimeout(s).transition;
            && |r.state.players| == |s.players| && |r.events| > 0
            && r.events[0] == (if s.players[a].streetCommitted < s.currentBet then PlayerFolded(s.actorId)
                               else PlayerChecked(s.actorId))
            && (r.state.players[a].status == Folded <==> s.players[a].streetCommitted < s.currentBet)
            && r.state.players[a].stack == s.players[a].stack
  {
    TimeoutAccepted(s);
    var c := TimeoutCommand(s, s.players[ActorSeat(s)]);
    Unfold(s);
    AcceptedSeat(s, c);
    CommandIsTold(s, c);
    CommandMovesChips(s, c);
    assert s.players[ActorSeat(s)].streetCommitted <= s.currentBet;
  }
}

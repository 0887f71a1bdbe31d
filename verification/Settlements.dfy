/** What a decision says about the chips: the settling event and the automatic action. */
module Settlements {
  import opened BettingInvariant
  import opened BettingSteps
  import opened Board
  import opened DurableLog
  import opened Fairness
  import opened Game
  import opened Gateway
  import opened HandEvents
  import opened LegalMoves
  import opened Numbers
  import opened Pots
  import Recovery
  import opened Reducer
  import opened Sequences
  import opened Table
  import opened TurnLaws
  import opened Wrappers

  // ---- A player's action ----

  /** A player's request becomes a commit exactly if it is for the hand and version of the runtime and the engine
      accepts it. The commit carries the request's id, player and content, the state and events decided, the stacks that
      state leaves, a deadline unless the hand is over, and an acknowledgement that says so. */
  lemma MoveIsCommitted(s: State, q: Request, deadline: Deadline)
    requires Playable(s)
    ensures var r := PlayerMove(s, q, deadline);
            && (r.Ok? <==> s.handId == q.handId && s.version == q.expectedVersion && Decide(s, q).Ok?)
            && (s.handId == q.handId && s.version != q.expectedVersion ==> r == Err(Stale(s.version)))
            && (r.Ok? ==>
                  var c, f := r.value, Decide(s, q).value;
                  && c.roomId == q.roomId && c.handId == q.handId && c.actionId == q.actionId
                  && c.actorUserId == q.userId && c.payloadHash == q.payloadHash && c.expectedVersion == s.version
                  && c.state == f.state && c.events == f.events && c.newVersion == f.state.version
                  && c.ack == Ack(q.actionId, f.state.version, f.events, false)
                  && |c.seatStacks| == |f.state.players|
                  && (forall i | 0 <= i < |c.seatStacks| ::
                        c.seatStacks[i] == SeatStack(f.state.players[i].id, f.state.players[i].stack))
                  && (c.deadline == if f.state.phase == Complete then None else Some(deadline)))
  {
  }

  // ---- The automatic action ----

  /** The server acts in the actor's name: it checks for a player who is level with the bet and folds only one who owes
      chips. */
  lemma TimeoutRequestIsFair(room: RoomId, s: State)
    requires Betting(s) && Playable(s) && s.phase != Complete
    ensures ActorSeat(s) < |s.players|
    ensures var q := TimeoutRequest(room, s);
            && q.userId == s.actorId && q.roomId == room && q.handId == s.handId && q.expectedVersion == s.version
            && q.actionId == ServerTimeout(s.handId, s.version)
            && q.action == if s.players[ActorSeat(s)].streetCommitted < s.currentBet then Fold else Check
  {
    Unfold(s);
    ListedAt(s);
    MovesAre(s, ActorSeat(s));
  }

  /** A timeout makes its request exactly when the hand is on and the decision it was set for, to the deadline, or the
      player it was set for, is still the one due. */
  lemma AwaitedMeaning(r: Recovery.Runtime, room: RoomId, user: Option<PlayerId>, expected: Option<Expected>)
    ensures Awaited(r, room, user, expected).Some? <==>
            && r.state.phase != Complete
            && (user.Some? ==> user.value == r.state.actorId)
            && (expected.Some? ==>
                  && expected.value.handId == r.state.handId && expected.value.version == r.state.version
                  && expected.value.actorId == r.state.actorId && Some(expected.value.deadline) == r.deadline)
  {
  }

  // ---- The settling event ----

  lemma {:induction false} StacksMapped(ps: seq<Player>)
    requires UniqueIds(ps)
    ensures forall i | 0 <= i < |ps| :: ps[i].id in StackMap(ps) && StackMap(ps)[ps[i].id] == ps[i].stack
    ensures forall id :: id in StackMap(ps) <==> IsPlayer(ps, id)
  {
    if |ps| > 0 {
      var n := |ps| - 1;
      assert forall i | 0 <= i < n :: ps[..n][i] == ps[i];
      StacksMapped(ps[..n]);
      forall id ensures id in StackMap(ps) <==> IsPlayer(ps, id) {
        if IsPlayer(ps, id) && id != ps[n].id {
          var i :| 0 <= i < |ps| && ps[i].id == id;
          assert ps[..n][i].id == id;
        }
        if id in StackMap(ps[..n]) {
          var i :| 0 <= i < n && ps[..n][i].id == id;
          assert ps[i].id == id;
        }
      }
    }
  }

  lemma {:induction false} AwardsToPlayers(before: map<PlayerId, int>, ps: seq<Player>)
    ensures forall id | id in Gateway.Awards(before, ps) :: Gateway.Awards(before, ps)[id] > 0 && IsPlayer(ps, id)
  {
    if |ps| > 0 {
      var n := |ps| - 1;
      AwardsToPlayers(before, ps[..n]);
      forall id | id in Gateway.Awards(before, ps) ensures IsPlayer(ps, id) {
        if id == ps[n].id {
          assert ps[n].id == id;
        } else {
          assert id in Gateway.Awards(before, ps[..n]) && IsPlayer(ps[..n], id);
          var i :| 0 <= i < n && ps[..n][i].id == id;
          assert ps[i].id == id;
        }
      }
    }
  }

  lemma {:induction false} AwardsMapped(before: map<PlayerId, int>, ps: seq<Player>)
    requires UniqueIds(ps) && forall i | 0 <= i < |ps| :: ps[i].id in before
    ensures forall i | 0 <= i < |ps| ::
              Owed(Gateway.Awards(before, ps), ps[i].id) == Max(0, ps[i].stack - before[ps[i].id])
  {
    if |ps| > 0 {
      var n := |ps| - 1;
      assert forall i | 0 <= i < n :: ps[..n][i] == ps[i];
      AwardsMapped(before, ps[..n]);
      AwardsToPlayers(before, ps[..n]);
      assert !IsPlayer(ps[..n], ps[n].id);
    }
  }

  function AwardTo(awards: map<PlayerId, int>): Player -> int { (p: Player) => Owed(awards, p.id) }

  /** The event tells a settlement from stacks before it to stacks after it: the pot is what was committed, each award
      what that player gained, and together they are the pot. */
  predicate TellsSettlement(e: GameEvent, before: seq<Player>, after: seq<Player>) {
    && e.HandSettled? && |before| == |after|
    && e.pot == Sum(before, HandOf) == Sum(after, AwardTo(e.awards))
    && (forall i | 0 <= i < |before| :: after[i].id == before[i].id
                                        && after[i].stack == before[i].stack + Owed(e.awards, after[i].id)
                                        && after[i].handCommitted == 0)
    && (forall id | id in e.awards :: e.awards[id] > 0 && IsPlayer(after, id))
    && (forall i | 0 <= i < |after| :: after[i].id in e.stacks && e.stacks[after[i].id] == after[i].stack)
    && (forall id | id in e.stacks :: IsPlayer(after, id))
  }

  lemma PayoutsAreAwards(mid: State, d: Deal)
    requires InGame(mid, d) && Playable(mid) && mid.phase == Complete && Settle(mid).Ok?
    ensures Gains(mid.players, Settle(mid).value.players)
  {
    InGameFacts(mid, d);
    Unfold(mid);
    PayableInGame(mid);
    SettlementGains(mid);
  }

  /** After a settlement everyone has at least as much as before it, all of the commitments taken together. */
  predicate Gains(before: seq<Player>, after: seq<Player>) {
    && |after| == |before| && UniqueIds(before) && UniqueIds(after)
    && (forall i | 0 <= i < |after| :: after[i].id == before[i].id && after[i].stack >= before[i].stack
                                       && after[i].handCommitted == 0)
    && Sum(after, StackOf) == Sum(before, StackOf) + Sum(before, HandOf)
  }

  lemma SettlementGains(mid: State)
    requires Payable(mid) && Settle(mid).Ok?
    ensures Gains(mid.players, Settle(mid).value.players)
  {
    SettleConserves(mid);
    var t, u := ShowdownState(mid).value, Settle(mid).value;
    PayableAfterRunOut(mid, t);
    forall i | 0 <= i < |mid.players| ensures u.players[i].stack >= mid.players[i].stack {
      PayoutBounded(t, i);
    }
    SumAdds(mid.players, StackOf, mid.players, HandOf, mid.players, ChipsOf);
    SumMatches(u.players, ChipsOf, u.players, StackOf);
  }

  lemma PayableInGame(s: State)
    requires BettingFacts(s) && s.phase == Complete
    ensures Payable(s)
  {
    forall i | 0 <= i < |s.players| ensures s.players[i].handCommitted >= 0 {
      assert PlayerOk(s.players[i]);
    }
  }

  lemma SettlementTold(before: seq<Player>, after: seq<Player>)
    requires Gains(before, after)
    ensures TellsSettlement(HandSettled(Sum(before, HandOf), Gateway.Awards(StackMap(before), after), StackMap(after)),
                            before, after)
  {
    var awards := Gateway.Awards(StackMap(before), after);
    StacksMapped(before);
    StacksMapped(after);
    forall i | 0 <= i < |after| ensures after[i].id in StackMap(before) {
      assert before[i].id == after[i].id;
    }
    AwardsMapped(StackMap(before), after);
    AwardsToPlayers(StackMap(before), after);
    forall i | 0 <= i < |after| ensures Owed(awards, after[i].id) == after[i].stack - before[i].stack {
      assert StackMap(before)[before[i].id] == before[i].stack;
    }
    SumAdds(before, StackOf, after, AwardTo(awards), after, StackOf);
  }

  /** The events of an action, and of the settlement that follows it if the hand is over. */
  predicate ToldWith(r: Transition, f: Finalized) {
    if r.state.phase != Complete then f.state == r.state && f.events == Moves(r.events)
    else
      && |f.events| == |r.events| + 1 && f.events[..|r.events|] == Moves(r.events)
      && f.state.phase == Complete
      && TellsSettlement(f.events[|r.events|], r.state.players, f.state.players)
  }

  lemma FinalizeIsTold(r: Transition, d: Deal)
    requires InGame(r.state, d) && Playable(r.state) && Finalize(r.state, r.events).Ok?
    ensures ToldWith(r, Finalize(r.state, r.events).value)
  {
    if r.state.phase == Complete {
      PayoutsAreAwards(r.state, d);
      SettlementTold(r.state.players, Settle(r.state).value.players);
    }
  }

  /** A decision that ends the hand is told by one more event, the last: it settles exactly the state the action led to,
      and every chip of the pot is awarded. One that does not end it settles nothing. */
  lemma DecisionIsTold(s: State, q: Request, d: Deal)
    requires InGame(s, d) && Playable(s) && Decide(s, q).Ok?
    ensures var c := Command(q.userId, Some(q.expectedVersion), q.action);
            Apply(s, c).Accepted? && ToldWith(Apply(s, c).transition, Decide(s, q).value)
  {
    var c := Command(q.userId, Some(q.expectedVersion), q.action);
    DecisionParts(s, q);
    PlaysOnInGame(s, c, d);
    FinalizeIsTold(Apply(s, c).transition, d);
  }

  lemma DecisionParts(s: State, q: Request)
    requires Playable(s) && Decide(s, q).Ok?
    ensures var c := Command(q.userId, Some(q.expectedVersion), q.action);
            && Apply(s, c).Accepted? && Playable(Apply(s, c).transition.state)
            && var r := Apply(s, c).transition;
            Finalize(r.state, r.events).Ok? && Finalize(r.state, r.events).value == Decide(s, q).value
  {
    ApplyKeepsSeats(s, Command(q.userId, Some(q.expectedVersion), q.action));
  }

  lemma PlaysOnInGame(s: State, c: Command, d: Deal)
    requires InGame(s, d) && Playable(s) && Apply(s, c).Accepted?
    ensures InGame(Apply(s, c).transition.state, d)
  {
    InGameFacts(s, d);
    Unfold(s);
    CommandKeepsBetting(s, c);
    CommandKeepsCards(s, c, d);
  }
}

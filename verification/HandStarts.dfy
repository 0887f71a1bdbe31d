/** Which dealt hands can start a durable record: those dealt from stacks of at least a big blind always can. */
module HandStarts {
  import opened BettingInvariant
  import opened Board
  import opened Cards
  import opened Dealing
  import opened Game
  import opened HandEvents
  import opened HandLogs
  import opened Lifecycle
  import opened NewHands
  import opened Reducer
  import opened Sequences
  import opened Table
  import opened Wrappers

  /** From buy-ins of at least a big blind the first hand is live and starts a record. */
  lemma FirstHandStarts(o: StartOptions)
    requires FirstHand(o).Ok?
    requires forall i | 0 <= i < |o.players| :: |o.players[i].id| > 0 && o.players[i].stack >= o.bigBlind
    ensures StartOk(o.tableId, o.handId, FirstHand(o).value, FirstDeal(o))
  {
    FirstHandInGame(o);
    StartSeats(o);
    StartChips(o);
    var seated := Seats(o.players);
    var (sb, bb) := StartBlinds(|seated|, o.buttonSeat);
    StartBlindsOpen(seated, o.buttonSeat);
    var actor := StartActor(PostAll(seated, sb, bb, o.smallBlind, o.bigBlind), o.buttonSeat);
    NewHandFields(EmptyTable(o), o.handId, o.buttonSeat, sb, bb, actor, o.deck);
    EnoughChipsPlay(FirstHand(o).value, seated, sb, bb, SeatAfter(bb, |seated|), actor);
    FirstNames(o);
  }

  lemma FirstNames(o: StartOptions)
    requires FirstHand(o).Ok? && forall i | 0 <= i < |o.players| :: |o.players[i].id| > 0
    ensures var s := FirstHand(o).value;
            NamesOk(s.players) && s.version == 0 && s.tableId == o.tableId && s.handId == o.handId
  {
  }

  lemma VersionResets(s: State)
    requires Betting(s)
    ensures Betting(s.(version := 0))
  {
    var t := s.(version := 0);
    Unfold(s);
    if s.phase != Complete {
      var a := ActorSeat(s);
      RightsReset(s, t);
      assert UnactedTopIsLast(t, a) by {
        assert forall p | 0 <= p < |t.players| :: UnactedTop(t, t.players[p]) == UnactedTop(s, s.players[p]);
        assert forall q | 0 <= q < |t.players| :: Done(t, q) == Done(s, q);
      }
      assert TurnOrder(t, a) by {
        assert forall q | 0 <= q < |t.players| :: Done(t, q) == Done(s, q);
      }
      assert LiveAt(t, a);
    }
  }

  lemma RightsReset(s: State, t: State)
    requires RightsMatch(s) && LastMatches(s) && t == s.(version := t.version)
    ensures RightsMatch(t) && LastMatches(t)
  {
    forall i | 0 <= i < |t.players| ensures RightsMatchAt(t, t.players[i]) && LastMatchesAt(t, t.players[i]) {
      assert RightsMatchAt(s, s.players[i]) && LastMatchesAt(s, s.players[i]);
    }
  }

  lemma NextNames(s: State, o: Option<AdvanceOptions>)
    requires ReadyTable(s) && NextHand(s, o).Ok? && NamesOk(s.players)
    ensures var t := NextHand(s, o).value; NamesOk(t.players) && t.tableId == s.tableId && t.handId == o.value.handId
  {
  }

  /** The next hand, its version set back to zero as the gateway does, starts a record of its own. */
  lemma NextHandStarts(s: State, o: Option<AdvanceOptions>)
    requires Betting(s) && ReadyTable(s) && NextHand(s, o).Ok? && NamesOk(s.players)
    requires forall i | 0 <= i < |s.players| && IsFunded(s.players[i]) :: s.players[i].stack >= s.bigBlind
    ensures StartOk(s.tableId, o.value.handId, NextHand(s, o).value.(version := 0), NextDeal(s, o))
  {
    NextHandInGame(s, o);
    BettingTable(s);
    NextHandFields(s, o);
    NextSeatingOpens(s);
    NextNames(s, o);
    var r, t := NextSeating(s), NextHand(s, o).value;
    EnoughChipsPlay(t, s.players, r.sb, r.bb, r.actor, r.actor);
    InGameFacts(t, NextDeal(s, o));
    VersionResets(t);
  }

  /** Short stacks can leave nothing to play for: with a button posting all of 10 and the other seat covering the
      big blind, the hand is over as it is dealt. */
  lemma ShortStackDealsComplete(deck: seq<Card>)
    requires Distinct52(deck)
    ensures var o := StartOptions("t", "h", [Entrant("a", 10), Entrant("b", 100)], 0, 10, 20, deck);
            FirstHand(o).Ok? && FirstHand(o).value.phase == Complete
  {
    var o := StartOptions("t", "h", [Entrant("a", 10), Entrant("b", 100)], 0, 10, 20, deck);
    assert "a" != "b" by {
      assert "a"[0] != "b"[0];
    }
    var seated := Seats(o.players);
    assert StartBlinds(2, 0) == (0, 1);
    var ps := PostAll(seated, 0, 1, 10, 20);
    assert ps[0].status == AllIn && ps[1].status == Active && ps[1].streetCommitted == 20;
    MaxStreetIsMax(ps);
    CountTwo(ps, IsActive);
    CountNone(ps, IsActive);
    var i :| 0 <= i < |ps| && ps[i].streetCommitted == MaxStreet(ps);
    assert MaxStreet(ps) == 20;
    StartSeats(o);
  }
}

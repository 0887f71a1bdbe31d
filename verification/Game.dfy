/** Whole games: hands dealt, played, settled and followed by the next, in any number. */
module Game {
  import opened BettingInvariant
  import opened BettingSteps
  import opened Board
  import opened Cards
  import opened Dealing
  import opened Evaluator
  import opened Fairness
  import opened Invariants
  import opened Lifecycle
  import opened NewHands
  import opened Pots
  import opened Reducer
  import opened Sealing
  import opened Sequences
  import opened Settlement
  import opened Showdown
  import opened Table
  import opened Termination
  import opened Wrappers

  // ---- What a command leaves alone ----

  /** The acting player's chips stay with them or go into the pot; everyone else and every card stays put. */
  predicate OnlySeat(s: State, t: State, a: nat) {
    && a < |s.players| == |t.players|
    && t.phase == s.phase && t.board == s.board && t.deck == s.deck && t.holeCards == s.holeCards
    && (forall i | 0 <= i < |s.players| :: i != a ==> t.players[i] == s.players[i])
    && t.players[a].id == s.players[a].id
    && ChipsOf(t.players[a]) == ChipsOf(s.players[a])
  }

  lemma ActionMovesOneSeat(s: State, a: nat, action: Action)
    requires a < |s.players|
    ensures OnlySeat(s, AfterAction(s, a, action), a)
  {
  }

  lemma StreetKeepsChips(s: State)
    requires |s.players| > 0 && s.buttonSeat >= 0
    ensures Chips(NextStreet(s)) == Chips(s)
  {
    SumMatches(s.players, ChipsOf, NextStreet(s).players, ChipsOf);
  }

  lemma FinishKeepsChips(s: State, seat: nat, events: seq<Event>)
    requires |s.players| > 0 && s.buttonSeat >= 0
    ensures Chips(FinishOrPass(s, seat, events).state) == Chips(s)
  {
    if !HandOver(s) && StreetClosed(s) {
      StreetKeepsChips(s);
    }
  }

  lemma ActionKeepsChips(s: State, t: State, a: nat)
    requires OnlySeat(s, t, a)
    ensures Chips(t) == Chips(s)
  {
    SumDiffers(s.players, ChipsOf, t.players, ChipsOf, a);
  }

  /** A command moves chips between stacks and pot; the total never changes. */
  lemma CommandConserves(s: State, c: Command)
    requires Betting(s) && Playable(s) && Apply(s, c).Accepted?
    ensures Chips(Apply(s, c).transition.state) == Chips(s)
  {
    Unfold(s);
    AcceptedSeat(s, c);
    var a := ActorSeat(s);
    ActionMovesOneSeat(s, a, c.action);
    ActionKeepsChips(s, AfterAction(s, a, c.action), a);
    FinishKeepsChips(AfterAction(s, a, c.action), a, [EventOf(s, a, c.action)]);
  }

  // ---- Cards through the hand ----

  lemma TakersMove(ps: seq<Player>, qs: seq<Player>, ids: seq<PlayerId>, a: nat)
    requires TakersDealt(ps, ids) && a < |ps| == |qs| && Participated(ps[a])
    requires forall i | 0 <= i < |ps| :: i != a ==> qs[i] == ps[i]
    requires qs[a].id == ps[a].id
    ensures TakersDealt(qs, ids)
  {
    forall i | 0 <= i < |qs| ensures qs[i].id == ps[i].id {
    }
    TakersSame(ps, qs, ids);
  }

  lemma TakersSame(ps: seq<Player>, qs: seq<Player>, ids: seq<PlayerId>)
    requires TakersDealt(ps, ids) && |ps| == |qs|
    requires forall i | 0 <= i < |ps| :: qs[i].id == ps[i].id
    requires forall i | 0 <= i < |ps| :: Participated(qs[i]) ==> Participated(ps[i])
    ensures TakersDealt(qs, ids)
  {
    forall id | id in ids ensures IsPlayer(qs, id) {
      assert IsPlayer(ps, id);
      var i :| 0 <= i < |ps| && ps[i].id == id;
      assert qs[i].id == id;
    }
  }

  lemma FinishKeepsCards(s: State, seat: nat, events: seq<Event>, d: Deal)
    requires |s.players| > 0 && s.buttonSeat >= 0 && s.phase != Complete
    requires CardsFrom(s, d)
    ensures CardsFrom(FinishOrPass(s, seat, events).state, d)
  {
    if !HandOver(s) && StreetClosed(s) {
      StreetCut(s.board, s.deck, d, s.phase);
      TakersSame(s.players, NextStreet(s).players, d.ids);
    }
  }

  lemma CommandKeepsCards(s: State, c: Command, d: Deal)
    requires BettingFacts(s) && Playable(s) && Apply(s, c).Accepted? && CardsFrom(s, d)
    ensures CardsFrom(Apply(s, c).transition.state, d)
  {
    AcceptedSeat(s, c);
    var a := ActorSeat(s);
    var t := AfterAction(s, a, c.action);
    ActionMovesOneSeat(s, a, c.action);
    TakersMove(s.players, t.players, d.ids, a);
    FinishKeepsCards(t, a, [EventOf(s, a, c.action)], d);
  }

  // ---- Settlement is always possible ----

  /** A hand in play: betting in order, and every card traceable to the deal. */
  ghost predicate InGame(s: State, d: Deal) {
    forall k {:trigger Open(InGameSeal, k)} :: Open(InGameSeal, k) ==> Betting(s) && CardsFrom(s, d)
  }

  lemma InGameFacts(s: State, d: Deal)
    requires InGame(s, d)
    ensures Betting(s) && CardsFrom(s, d)
  {
    assert Open(InGameSeal, 0);
  }

  lemma CompleteIsPayable(s: State)
    requires Betting(s) && s.phase == Complete
    ensures Payable(s)
  {
    Unfold(s);
    forall i | 0 <= i < |s.players| ensures s.players[i].handCommitted >= 0 && s.players[i].seat >= 0 {
      assert PlayerOk(s.players[i]);
    }
  }

  lemma HandAndBoard(d: Deal, t: nat)
    requires DealOk(d) && t < |d.ids|
    ensures Distinct([d.deck[t], d.deck[|d.ids| + t]] + BoardCards(d, 5))
  {
    var deck, b := d.deck, Base(d);
    var xs: seq<nat> := [t, |d.ids| + t, b + 1, b + 2, b + 3, b + 5, b + 7];
    var cards := [deck[t], deck[|d.ids| + t], deck[b + 1], deck[b + 2], deck[b + 3], deck[b + 5], deck[b + 7]];
    DistinctAt(deck, cards, xs);
    assert [deck[t], deck[|d.ids| + t]] + BoardCards(d, 5) == cards;
  }

  /** At every point of a hand, live or complete, a player who has not folded has put in the most. */
  lemma SomeoneCovers(s: State)
    requires Betting(s)
    ensures Covered(s.players)
  {
    Unfold(s);
    if s.phase != Complete {
      TopCovers(s.players, s.currentBet, Carry(s.players[ActorSeat(s)]));
    }
  }

  /** With the board complete, everyone who has not folded can show seven different cards. */
  lemma ContendersShow(s: State, d: Deal, i: nat)
    requires CardsFrom(s, d) && |s.board| == 5 && i < |s.players| && s.players[i].status != Folded
    ensures Showable(s, s.players[i].id)
  {
    EachDealtTwo(d.ids, d.deck);
    var id := s.players[i].id;
    assert Participated(s.players[i]);
    var t :| 0 <= t < |d.ids| && d.ids[t] == id;
    HandAndBoard(d, t);
  }

  lemma {:induction false} EligibleContend(ps: seq<Player>, k: nat, j: nat)
    requires k <= |Levels(ps)| && j < |PotsTo(ps, Levels(ps), k)|
    ensures forall id | id in PotsTo(ps, Levels(ps), k)[j].eligible ::
              exists i :: 0 <= i < |ps| && ps[i].id == id && ps[i].status != Folded
  {
    if j < |PotsTo(ps, Levels(ps), k - 1)| {
      EligibleContend(ps, k - 1, j);
    } else {
      var level := Levels(ps)[k - 1];
      forall id | id in IdsOf(ps, EligibleAt(level))
        ensures exists i :: 0 <= i < |ps| && ps[i].id == id && ps[i].status != Folded
      {
        var i :| 0 <= i < |ps| && ps[i].id == id && EligibleAt(level)(ps[i]);
      }
    }
  }

  lemma {:induction false} NoPotFault(s: State, pots: seq<Pot>)
    requires forall j | 0 <= j < |pots| :: |pots[j].eligible| > 0
    requires forall j | 0 <= j < |pots| :: forall id | id in pots[j].eligible :: Showable(s, id)
    ensures PotFault(s, pots).None?
  {
    if |pots| > 0 {
      AllShowable(s, pots[0].eligible);
      NoPotFault(s, pots[1..]);
    }
  }

  /** The showdown board: five fixed places of the deck, however many streets were played. */
  lemma ShowdownBoard(s: State, d: Deal)
    requires CardsFrom(s, d) && s.phase == Complete
    ensures ShowdownState(s).Ok? && CardsFrom(ShowdownState(s).value, d)
    ensures Count(s.players, IsContender) > 1 ==>
              ShowdownState(s).value.board
              == d.deck[Base(d) + 1..Base(d) + 4] + [d.deck[Base(d) + 5], d.deck[Base(d) + 7]]
    ensures ShowdownState(s).value == s.(board := ShowdownState(s).value.board, deck := ShowdownState(s).value.deck)
  {
    if Count(s.players, IsContender) > 1 {
      RunOutCut(s.board, s.deck, d);
    }
  }

  lemma NoSettleFault(t: State, d: Deal)
    requires CardsFrom(t, d) && Covered(t.players)
    requires Count(t.players, IsContender) > 1 ==> |t.board| == 5
    ensures SettleFault(t).None?
  {
    ContenderExists(t.players);
    if Count(t.players, IsContender) > 1 {
      var pots := PotsOf(t.players);
      PotsHaveEligible(t.players, |Levels(t.players)|);
      forall j: nat | j < |pots| ensures forall id | id in pots[j].eligible :: Showable(t, id) {
        EligibleContend(t.players, |Levels(t.players)|, j);
        forall id | id in pots[j].eligible ensures Showable(t, id) {
          var i: nat :| i < |t.players| && t.players[i].id == id && t.players[i].status != Folded;
          ContendersShow(t, d, i);
        }
      }
      NoPotFault(t, pots);
    }
  }

  /** Every completed hand settles. */
  lemma CompleteSettles(s: State, d: Deal)
    requires InGame(s, d) && s.phase == Complete
    ensures Payable(s) && Settle(s).Ok?
    ensures ShowdownState(s).Ok? && Payable(ShowdownState(s).value)
    ensures Settle(s).value == Settled(ShowdownState(s).value)
  {
    InGameFacts(s, d);
    CompleteIsPayable(s);
    ShowdownBoard(s, d);
    PayableAfterRunOut(s, ShowdownState(s).value);
    NoSettleFault(ShowdownState(s).value, d);
  }

  lemma SettledPlayer(t: State, i: nat)
    requires Payable(t) && i < |t.players| && PlayerOk(t.players[i])
    ensures var q := Settled(t).players[i];
            && PlayerOk(q) && q.id == t.players[i].id && q.seat == t.players[i].seat
            && q.streetCommitted == 0 == q.handCommitted
            && (q.status == Folded <==> t.players[i].status == Folded)
            && (Participated(q) ==> Participated(t.players[i]))
  {
    PayoutBounded(t, i);
    if t.players[i].status == Folded {
      FoldedGetNothing(t, i);
    }
  }

  lemma SettledPlayers(t: State)
    requires Payable(t) && Seated(t.players) && ChipsOk(t.players)
    ensures var ps := Settled(t).players;
            && Seated(ps) && ChipsOk(ps) && BetIsMax(ps, 0) && Covered(ps)
            && |ps| == |t.players| && forall i | 0 <= i < |ps| :: ps[i].id == t.players[i].id
                                        && (Participated(ps[i]) ==> Participated(t.players[i]))
  {
    var ps := Settled(t).players;
    forall i | 0 <= i < |ps|
      ensures PlayerOk(ps[i]) && ps[i].id == t.players[i].id && ps[i].seat == t.players[i].seat
              && ps[i].streetCommitted == 0 == ps[i].handCommitted
              && (ps[i].status == Folded <==> t.players[i].status == Folded)
              && (Participated(ps[i]) ==> Participated(t.players[i]))
    {
      assert PlayerOk(t.players[i]);
      SettledPlayer(t, i);
    }
    var top :| 0 <= top < |t.players| && t.players[top].status != Folded;
    assert ps[top].status != Folded;
  }

  lemma SettledTable(t: State, u: State)
    requires TableOk(t) && IsPlayer(t.players, t.actorId) && t.phase == Complete
    requires Seated(u.players) && ChipsOk(u.players) && BetIsMax(u.players, 0) && Covered(u.players)
    requires |u.players| == |t.players| && forall i | 0 <= i < |u.players| :: u.players[i].id == t.players[i].id
    requires u == t.(version := t.version + 1, currentBet := 0, acted := [], raiseRights := [],
                     lastActedBet := map[], players := u.players)
    ensures Betting(u)
  {
    var i :| 0 <= i < |t.players| && t.players[i].id == t.actorId;
    assert u.players[i].id == u.actorId;
  }

  lemma RunOutKeepsTable(s: State, t: State)
    requires BettingFacts(s) && t == s.(board := t.board, deck := t.deck)
    ensures TableOk(t) && IsPlayer(t.players, t.actorId)
  {
  }

  lemma SettledCards(t: State, u: State, d: Deal)
    requires CardsFrom(t, d) && t.phase == Complete == u.phase
    requires u.board == t.board && u.deck == t.deck && u.holeCards == t.holeCards
    requires |u.players| == |t.players|
    requires forall i | 0 <= i < |u.players| :: u.players[i].id == t.players[i].id
                                                && (Participated(u.players[i]) ==> Participated(t.players[i]))
    ensures CardsFrom(u, d)
  {
    TakersSame(t.players, u.players, d.ids);
  }

  lemma SettledFields(t: State)
    requires forall i | 0 <= i < |t.players| :: t.players[i].seat >= 0
    ensures var u := Settled(t);
            u == t.(version := t.version + 1, currentBet := 0, acted := [], raiseRights := [],
                    lastActedBet := map[], players := u.players)
  {
  }

  lemma SettledInGame(s: State, t: State, d: Deal)
    requires BettingFacts(s) && s.phase == Complete && t == s.(board := t.board, deck := t.deck)
    requires Payable(t) && CardsFrom(t, d)
    ensures InGame(Settled(t), d)
  {
    RunOutKeepsTable(s, t);
    SettledPlayers(t);
    SettledFields(t);
    SettledTable(t, Settled(t));
    SettledCards(t, Settled(t), d);
  }

  /** Settlement leaves a table from which the game goes on. */
  lemma SettleKeepsGame(s: State, d: Deal)
    requires InGame(s, d) && s.phase == Complete
    ensures Payable(s) && Settle(s).Ok? && InGame(Settle(s).value, d)
  {
    CompleteSettles(s, d);
    InGameFacts(s, d);
    ShowdownBoard(s, d);
    Unfold(s);
    SettledInGame(s, ShowdownState(s).value, d);
  }

  // ---- Dealing ----

  lemma NewHandParts(s: State, handId: string, button: nat, sb: nat, bb: nat, actor: nat, deck: seq<Card>)
    requires button < |s.players| && actor < |s.players| && 2 * |Clock(s.players, button)| <= |deck|
    ensures var t := NewHand(s, handId, button, sb, bb, actor, deck);
            var ids := IdsAt(s.players, Clock(s.players, button));
            && t.players == PostAll(s.players, sb, bb, s.smallBlind, s.bigBlind)
            && t.board == [] && t.deck == deck[2 * |ids|..] && t.holeCards == HoleCards(ids, deck, |ids|)
            && (t.phase == Complete || t.phase == Preflop)
  {
  }

  lemma NewHandCards(s: State, handId: string, button: nat, sb: nat, bb: nat, actor: nat, deck: seq<Card>)
    requires Seated(s.players) && StacksOk(s.players) && button < |s.players| && actor < |s.players|
    requires 2 <= Count(s.players, IsFunded) <= 9 && Distinct52(deck) && 0 <= s.smallBlind && 0 <= s.bigBlind
    ensures |Clock(s.players, button)| == Count(s.players, IsFunded)
    ensures CardsFrom(NewHand(s, handId, button, sb, bb, actor, deck),
                      Deal(deck, IdsAt(s.players, Clock(s.players, button))))
  {
    ClockCounts(s.players, button);
    ClockDistinct(s.players, button);
    NewHandParts(s, handId, button, sb, bb, actor, deck);
    DealtTakers(s.players, button, sb, bb, s.smallBlind, s.bigBlind);
    FreshCards(NewHand(s, handId, button, sb, bb, actor, deck), Deal(deck, IdsAt(s.players, Clock(s.players, button))));
  }

  lemma FreshCards(t: State, d: Deal)
    requires DealOk(d) && t.board == [] && t.deck == d.deck[Base(d)..]
    requires t.phase == Complete || t.phase == Preflop
    requires t.holeCards == HoleCards(d.ids, d.deck, |d.ids|) && TakersDealt(t.players, d.ids)
    ensures CardsFrom(t, d)
  {
  }

  lemma DealtTakers(ps: seq<Player>, button: nat, sb: nat, bb: nat, small: int, big: int)
    requires Seated(ps) && StacksOk(ps) && button < |ps| && 0 <= small && 0 <= big
    ensures TakersDealt(PostAll(ps, sb, bb, small, big), IdsAt(ps, Clock(ps, button)))
  {
    var clock := Clock(ps, button);
    var ids := IdsAt(ps, clock);
    var posted := PostAll(ps, sb, bb, small, big);
    forall i: nat | i < |posted| && Participated(posted[i]) ensures posted[i].id in ids {
      PostOk(ps[i], Forced(i, sb, bb, small, big));
      var v := FundedInClock(ps, button, i);
      assert ids[v] == ps[i].id;
    }
    forall id | id in ids ensures IsPlayer(posted, id) {
      var v :| 0 <= v < |ids| && ids[v] == id;
      assert posted[clock[v]].id == id;
    }
  }

  /** The deal a first hand is played from. */
  function FirstDeal(o: StartOptions): Deal
    requires FirstHand(o).Ok?
  {
    Deal(o.deck, IdsAt(Seats(o.players), Clock(Seats(o.players), o.buttonSeat)))
  }

  lemma FirstHandInGame(o: StartOptions)
    requires FirstHand(o).Ok?
    ensures InGame(FirstHand(o).value, FirstDeal(o))
  {
    FirstHandIsBetting(o);
    StartSeats(o);
    StartChips(o);
    var seated := Seats(o.players);
    FullClock(seated, o.buttonSeat);
    ClockCounts(seated, o.buttonSeat);
    var (sb, bb) := StartBlinds(|seated|, o.buttonSeat);
    var actor := StartActor(PostAll(seated, sb, bb, o.smallBlind, o.bigBlind), o.buttonSeat);
    NewHandCards(EmptyTable(o), o.handId, o.buttonSeat, sb, bb, actor, o.deck);
  }

  /** The deal of the next hand: the new deck, to the funded players from the left of the new button. */
  function NextDeal(s: State, o: Option<AdvanceOptions>): Deal
    requires ReadyTable(s) && NextHand(s, o).Ok?
  {
    Deal(o.value.deck, IdsAt(s.players, Clock(s.players, NextSeating(s).button)))
  }

  lemma NextHandInGame(s: State, o: Option<AdvanceOptions>)
    requires Betting(s) && ReadyTable(s) && NextHand(s, o).Ok?
    ensures InGame(NextHand(s, o).value, NextDeal(s, o))
  {
    NextHandIsBetting(s, o);
    BettingTable(s);
    var r := NextSeating(s);
    NewHandCards(s, o.value.handId, r.button, r.sb, r.bb, r.actor, o.value.deck);
  }

  // ---- The invariants of every state ----

  lemma {:induction false} NoPlayerViolation(ps: seq<Player>)
    requires ChipsOk(ps)
    ensures FirstPlayerViolation(ps).None?
  {
    if |ps| > 0 {
      assert PlayerOk(ps[0]);
      NoPlayerViolation(ps[1..]);
    }
  }

  lemma {:induction false} MaxIsMaxStreet(ps: seq<Player>, bet: int)
    requires |ps| > 0 && BetIsMax(ps, bet)
    ensures MaxStreet(ps) == bet
  {
    MaxStreetIsMax(ps);
  }

  lemma NoTableViolation(s: State)
    requires BettingFacts(s)
    ensures TableViolation(s).None?
  {
    NoPlayerViolation(s.players);
    assert s.players[s.buttonSeat].seat == s.buttonSeat;
  }

  lemma NoBettingViolation(s: State)
    requires BettingFacts(s)
    ensures BettingViolation(s).None?
  {
    MaxIsMaxStreet(s.players, s.currentBet);
    var i :| 0 <= i < |s.players| && s.players[i].id == s.actorId;
    SeatOfUnique(s.players, i);
    assert PlayerOk(s.players[i]);
    assert s.players[0].streetCommitted >= 0 by {
      assert PlayerOk(s.players[0]);
    }
    assert s.currentBet >= 0;
  }

  lemma NoCardViolation(s: State, d: Deal)
    requires CardsFrom(s, d) && UniqueIds(s.players)
    ensures CardViolation(s).None?
  {
    NoCardTwice(s, d);
    EachDealtTwo(d.ids, d.deck);
    forall id | id in s.holeCards ensures IsPlayer(s.players, id) && |s.holeCards[id]| == 2 {
      var t :| 0 <= t < |d.ids| && d.ids[t] == id;
      assert s.holeCards[d.ids[t]] == [d.deck[t], d.deck[|d.ids| + t]];
    }
  }

  /** A state in play passes the executable check, and its bet is exactly the largest of the street. */
  lemma InGamePasses(s: State, d: Deal)
    requires InGame(s, d)
    ensures AssertInvariants(s).None?
    ensures |s.players| > 0 && s.currentBet == MaxStreet(s.players)
    ensures forall i | 0 <= i < |s.players| :: s.players[i].seat == i
  {
    InGameFacts(s, d);
    Unfold(s);
    NoTableViolation(s);
    NoBettingViolation(s);
    NoCardViolation(s, d);
    MaxIsMaxStreet(s.players, s.currentBet);
  }

  // ---- Whole games ----

  datatype Step =
    | Act(command: Command)
    | SettleUp
    | DealNext(options: Option<AdvanceOptions>)

  /** The state after a step, if the engine does not refuse it. */
  function Played(s: State, step: Step): Option<State>
    requires Playable(s) && ReadyTable(s)
  {
    match step
    case Act(c) => (match Apply(s, c) case Accepted(transition) => Some(transition.state) case Rejected(_, _) => None)
    case SettleUp => (match Settle(s) case Ok(t) => Some(t) case Err(_) => None)
    case DealNext(o) => (match NextHand(s, o) case Ok(t) => Some(t) case Err(_) => None)
  }

  function DealAfter(s: State, d: Deal, step: Step): Deal
    requires Playable(s) && ReadyTable(s)
  {
    if step.DealNext? && NextHand(s, step.options).Ok? then NextDeal(s, step.options) else d
  }

  lemma InGamePlayable(s: State, d: Deal)
    requires InGame(s, d)
    ensures Playable(s) && ReadyTable(s)
  {
    InGameFacts(s, d);
    Unfold(s);
  }

  /** Every step keeps the game in order and the total of chips. */
  lemma StepKeepsGame(s: State, d: Deal, step: Step)
    requires InGame(s, d) && Playable(s) && ReadyTable(s) && Played(s, step).Some?
    ensures InGame(Played(s, step).value, DealAfter(s, d, step))
    ensures Chips(Played(s, step).value) == Chips(s)
  {
    InGameFacts(s, d);
    match step {
      case Act(c) =>
        CommandKeepsBetting(s, c);
        CommandConserves(s, c);
        Unfold(s);
        CommandKeepsCards(s, c, d);
      case SettleUp =>
        SettleKeepsGame(s, d);
        SettleConserves(s);
      case DealNext(o) =>
        NextHandInGame(s, o);
        NextHandConserves(s, o);
    }
  }

  /** The engine accepts the step in state s and answers with t. */
  ghost predicate Follows(s: State, step: Step, t: State) {
    forall k {:trigger Open(FollowsStepSeal, k)} :: Open(FollowsStepSeal, k) ==>
      Playable(s) && ReadyTable(s) && Played(s, step) == Some(t)
  }

  ghost predicate Steps(states: seq<State>, steps: seq<Step>) {
    && |states| == |steps| + 1
    && forall k {:trigger steps[k]} | 0 <= k < |steps| :: Follows(states[k], steps[k], states[k + 1])
  }

  /** A game: a first hand and any accepted steps after it. */
  ghost predicate Play(o: StartOptions, states: seq<State>, steps: seq<Step>) {
    && FirstHand(o).Ok?
    && Steps(states, steps)
    && states[0] == FirstHand(o).value
  }

  /** A hand in play with this many chips on the table. */
  ghost predicate Going(s: State, d: Deal, total: int) {
    forall k {:trigger Open(GoingSeal, k)} :: Open(GoingSeal, k) ==> InGame(s, d) && Chips(s) == total
  }

  lemma FollowsKeepsGame(s: State, d: Deal, total: int, step: Step, t: State) returns (e: Deal)
    requires Going(s, d, total) && Follows(s, step, t)
    ensures Going(t, e, total)
    ensures !step.DealNext? ==> e == d
  {
    assert Open(GoingSeal, 0) && Open(FollowsStepSeal, 0);
    StepKeepsGame(s, d, step);
    e := DealAfter(s, d, step);
  }

  lemma {:induction false} StepsKeepGoing(states: seq<State>, steps: seq<Step>, d: Deal, total: int, k: nat)
    returns (e: Deal)
    requires Steps(states, steps) && k < |states| && Going(states[0], d, total)
    ensures Going(states[k], e, total)
    ensures (forall j | 0 <= j < k :: !steps[j].DealNext?) ==> e == d
  {
    if k == 0 {
      e := d;
    } else {
      var before := StepsKeepGoing(states, steps, d, total, k - 1);
      e := FollowsKeepsGame(states[k - 1], before, total, steps[k - 1], states[k]);
    }
  }

  lemma StepsKeepGame(states: seq<State>, steps: seq<Step>, d: Deal, k: nat) returns (e: Deal)
    requires Steps(states, steps) && k < |states| && InGame(states[0], d)
    ensures InGame(states[k], e) && Chips(states[k]) == Chips(states[0])
    ensures (forall j | 0 <= j < k :: !steps[j].DealNext?) ==> e == d
  {
    e := StepsKeepGoing(states, steps, d, Chips(states[0]), k);
    assert Open(GoingSeal, 0);
  }

  lemma BuyIn(o: StartOptions)
    requires FirstHand(o).Ok?
    ensures Chips(FirstHand(o).value) == Sum(Seats(o.players), StackOf)
  {
    StartSeats(o);
    StartChips(o);
    var seated := Seats(o.players);
    var (sb, bb) := StartBlinds(|seated|, o.buttonSeat);
    PostKeepsChips(seated, sb, bb, o.smallBlind, o.bigBlind);
    SumMatches(seated, ChipsOf, seated, StackOf);
  }

  /** Across any number of hands every state passes the invariants, the bet is the largest of its street, the chips
      on the table are exactly those the first players sat down with, and a completed hand can be settled. */
  lemma WholeGame(o: StartOptions, states: seq<State>, steps: seq<Step>, k: nat)
    requires Play(o, states, steps) && k < |states|
    ensures AssertInvariants(states[k]).None?
    ensures Playable(states[k]) && ReadyTable(states[k])
    ensures states[k].currentBet == MaxStreet(states[k].players)
    ensures Chips(states[k]) == Sum(Seats(o.players), StackOf)
    ensures states[k].phase == Complete ==> Played(states[k], SettleUp).Some?
  {
    FirstHandInGame(o);
    BuyIn(o);
    var d := StepsKeepGame(states, steps, FirstDeal(o), k);
    InGamePasses(states[k], d);
    InGamePlayable(states[k], d);
    if states[k].phase == Complete {
      SettleKeepsGame(states[k], d);
    }
  }

  lemma ShowdownCards(s: State, d: Deal, t: State)
    requires InGame(s, d) && Follows(s, SettleUp, t) && Count(s.players, IsContender) > 1
    ensures DealOk(d)
    ensures t.board == d.deck[Base(d) + 1..Base(d) + 4] + [d.deck[Base(d) + 5], d.deck[Base(d) + 7]]
    ensures t.deck == d.deck[Base(d) + 8..]
  {
    InGameFacts(s, d);
    assert Open(FollowsStepSeal, 0);
    ShowdownBoard(s, d);
    RunOutCut(s.board, s.deck, d);
  }

  lemma CardsDiffer(s: State, d: Deal)
    requires InGame(s, d)
    ensures Distinct(AllCards(s))
  {
    InGameFacts(s, d);
    Unfold(s);
    NoCardTwice(s, d);
  }

  lemma GoingFacts(s: State, d: Deal, total: int)
    requires Going(s, d, total)
    ensures InGame(s, d)
  {
    assert Open(GoingSeal, 0);
  }

  lemma NowGoing(s: State, d: Deal) returns (total: int)
    requires InGame(s, d)
    ensures Going(s, d, total)
  {
    total := Chips(s);
  }

  /** At no point of a game does any card appear twice among the undealt cards, the board and the hands. */
  lemma NeverTwice(states: seq<State>, steps: seq<Step>, d: Deal, k: nat)
    requires Steps(states, steps) && InGame(states[0], d) && k < |states|
    ensures Distinct(AllCards(states[k]))
  {
    var total := NowGoing(states[0], d);
    var e := StepsKeepGoing(states, steps, d, total, k);
    GoingFacts(states[k], e, total);
    CardsDiffer(states[k], e);
  }

  /** No new hand is dealt in these steps. */
  predicate OneHand(steps: seq<Step>) {
    forall j | 0 <= j < |steps| :: !steps[j].DealNext?
  }

  lemma SameDealGoing(states: seq<State>, steps: seq<Step>, d: Deal, total: int, k: nat)
    requires Steps(states, steps) && k < |states| && Going(states[0], d, total) && OneHand(steps)
    ensures Going(states[k], d, total)
  {
    var e := StepsKeepGoing(states, steps, d, total, k);
  }

  lemma LastShowdown(s: State, d: Deal, total: int, t: State)
    requires Going(s, d, total) && Follows(s, SettleUp, t) && Count(s.players, IsContender) > 1
    ensures DealOk(d)
    ensures var n := |d.ids|;
            && t.board == d.deck[2 * n + 1..2 * n + 4] + [d.deck[2 * n + 5], d.deck[2 * n + 7]]
            && t.deck == d.deck[2 * n + 8..]
  {
    GoingFacts(s, d, total);
    ShowdownCards(s, d, t);
  }

  /** However a hand of n dealt players is bet, a showdown at the end of it is settled on the deck's cards 2n + 1 to
      2n + 3, 2n + 5 and 2n + 7. */
  lemma BoardIndependence(states: seq<State>, steps: seq<Step>, d: Deal, t: State)
    requires Steps(states, steps) && InGame(states[0], d) && OneHand(steps)
    requires Follows(states[|steps|], SettleUp, t) && Count(states[|steps|].players, IsContender) > 1
    ensures DealOk(d)
    ensures var n := |d.ids|;
            && t.board == d.deck[2 * n + 1..2 * n + 4] + [d.deck[2 * n + 5], d.deck[2 * n + 7]]
            && t.deck == d.deck[2 * n + 8..]
  {
    var total := NowGoing(states[0], d);
    SameDealGoing(states, steps, d, total, |steps|);
    LastShowdown(states[|steps|], d, total, t);
  }

  /** Every funded seat, and no other, is dealt two cards: in dealing order, one from each round. */
  lemma FundedAreDealt(ps: seq<Player>, button: nat, deck: seq<Card>, i: nat)
    requires Seated(ps) && button < |ps| && i < |ps| && |deck| == DECK_SIZE
    ensures |Clock(ps, button)| == Count(ps, IsFunded) <= 9
    ensures var m := Count(ps, IsFunded);
            var held := HoleCards(IdsAt(ps, Clock(ps, button)), deck, m);
            && (ps[i].id in held <==> IsFunded(ps[i]))
            && (IsFunded(ps[i]) ==>
                  exists t :: 0 <= t < m && Clock(ps, button)[t] == i && held[ps[i].id] == [deck[t], deck[m + t]])
  {
    ClockCounts(ps, button);
    ClockDistinct(ps, button);
    FundedIds(ps, button);
    var ids := IdsAt(ps, Clock(ps, button));
    EachDealtTwo(ids, deck);
    IdsOfAt(ps, IsFunded, i);
    assert ps[i].id in ids <==> IsFunded(ps[i]);
    if IsFunded(ps[i]) {
      var t := FundedInClock(ps, button, i);
      DealtAt(ps, Clock(ps, button), deck, t);
    }
  }

  lemma DealtAt(ps: seq<Player>, clock: seq<nat>, deck: seq<Card>, t: nat)
    requires forall k | 0 <= k < |clock| :: clock[k] < |ps|
    requires t < |clock| && 2 * |clock| <= |deck| && Distinct(IdsAt(ps, clock))
    ensures var held := HoleCards(IdsAt(ps, clock), deck, |clock|);
            ps[clock[t]].id in held && held[ps[clock[t]].id] == [deck[t], deck[|clock| + t]]
  {
    EachDealtTwo(IdsAt(ps, clock), deck);
    assert IdsAt(ps, clock)[t] == ps[clock[t]].id;
  }

  /** In the next hand every funded player, and nobody else, holds exactly two cards: one from each round of the new
      deck, in the place of their seat clockwise from the new button. */
  lemma NextHandDeals(s: State, o: Option<AdvanceOptions>, i: nat)
    requires Betting(s) && ReadyTable(s) && NextHand(s, o).Ok? && i < |s.players|
    ensures var t := NextHand(s, o).value;
            var id, m := s.players[i].id, Count(s.players, IsFunded);
            && 2 <= m <= 9 && |o.value.deck| == 52
            && t.buttonSeat < |s.players| && t.buttonSeat >= 0
            && (id in t.holeCards <==> IsFunded(s.players[i]))
            && (IsFunded(s.players[i]) ==>
                  exists p :: 0 <= p < m && p < |Clock(s.players, t.buttonSeat)|
                              && Clock(s.players, t.buttonSeat)[p] == i
                              && t.holeCards[id] == [o.value.deck[p], o.value.deck[m + p]])
  {
    BettingTable(s);
    FundedAreDealt(s.players, NextSeating(s).button, o.value.deck, i);
  }

  lemma {:induction false} FullClockAt(ps: seq<Player>, button: nat, t: nat)
    requires button < |ps| && t < |ps| && forall i | 0 <= i < |ps| :: IsFunded(ps[i])
    ensures |Clock(ps, button)| == |ps| && Clock(ps, button)[t] == (button + 1 + t) % |ps|
  {
    FullClock(ps, button);
    if t > 0 {
      FullClockAt(ps, button, t - 1);
      NextPlace(button + t, |ps|);
    }
  }

  lemma NextPlace(x: nat, n: nat)
    requires 0 < n && x < 2 * n
    ensures SeatAfter(x % n, n) == (x + 1) % n
  {
    var q := x / n;
    assert x == q * n + x % n;
    if x < n {
      SmallMod(x, n);
    } else {
      WrapMod(x, n);
      if x - n + 1 < n {
        SmallMod(x - n + 1, n);
        WrapMod(x + 1, n);
      } else {
        assert x + 1 == 2 * n;
        assert (2 * n) % n == 0;
      }
    }
  }

  lemma FirstHoleCards(o: StartOptions)
    requires FirstHand(o).Ok?
    ensures 0 <= o.buttonSeat < |o.players| <= 9 && |o.deck| == 52
    ensures Seated(Seats(o.players)) && forall i | 0 <= i < |o.players| :: IsFunded(Seats(o.players)[i])
    ensures var clock := Clock(Seats(o.players), o.buttonSeat);
            |clock| <= 9 && FirstHand(o).value.holeCards == HoleCards(IdsAt(Seats(o.players), clock), o.deck, |clock|)
  {
    StartSeats(o);
    StartChips(o);
    var seated := Seats(o.players);
    var (sb, bb) := StartBlinds(|seated|, o.buttonSeat);
    var actor := StartActor(PostAll(seated, sb, bb, o.smallBlind, o.bigBlind), o.buttonSeat);
    NewHandParts(EmptyTable(o), o.handId, o.buttonSeat, sb, bb, actor, o.deck);
  }

  /** The hands of a first hand. */
  function FirstHands(o: StartOptions): map<PlayerId, seq<Card>>
    requires FirstHand(o).Ok?
  {
    FirstHand(o).value.holeCards
  }

  lemma HandsDealAt(held: map<PlayerId, seq<Card>>, ps: seq<Player>, button: nat, deck: seq<Card>, t: nat, seat: nat)
    requires Seated(ps) && button < |ps| && t < |ps| && |deck| == DECK_SIZE
    requires forall i | 0 <= i < |ps| :: IsFunded(ps[i])
    requires seat < |ps| && seat == (button + 1 + t) % |ps| && |Clock(ps, button)| <= 9
    requires held == HoleCards(IdsAt(ps, Clock(ps, button)), deck, |Clock(ps, button)|)
    ensures ps[seat].id in held && held[ps[seat].id] == [deck[t], deck[|ps| + t]]
  {
    SeatDealt(ps, button, deck, t, seat);
  }

  /** In the first hand of n players the seat t + 1 places past the button gets cards t and n + t of the deck. */
  lemma FirstHandDeals(o: StartOptions, t: nat, seat: nat)
    requires FirstHand(o).Ok? && t < |o.players| && seat < |o.players|
    requires seat == (o.buttonSeat + 1 + t) % |o.players|
    ensures |o.deck| == 52 && |o.players| <= 9
    ensures o.players[seat].id in FirstHands(o)
    ensures FirstHands(o)[o.players[seat].id] == [o.deck[t], o.deck[|o.players| + t]]
  {
    FirstHoleCards(o);
    HandsDealAt(FirstHands(o), Seats(o.players), o.buttonSeat, o.deck, t, seat);
  }

  lemma SeatDealt(ps: seq<Player>, button: nat, deck: seq<Card>, t: nat, seat: nat)
    requires Seated(ps) && button < |ps| && t < |ps| && |deck| == DECK_SIZE
    requires forall i | 0 <= i < |ps| :: IsFunded(ps[i])
    requires seat < |ps| && seat == (button + 1 + t) % |ps|
    ensures |Clock(ps, button)| == |ps|
    ensures var held := HoleCards(IdsAt(ps, Clock(ps, button)), deck, |ps|);
            ps[seat].id in held && held[ps[seat].id] == [deck[t], deck[|ps| + t]]
  {
    FullClockAt(ps, button, t);
    ClockDistinct(ps, button);
    DealtAt(ps, Clock(ps, button), deck, t);
  }
}

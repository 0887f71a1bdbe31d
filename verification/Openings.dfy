/** How a hand opens, stated on the table it leaves: who posts which blind, what everyone has left, who speaks first,
    and which requests to deal are granted. */
module Openings {
  import opened BettingInvariant
  import opened Cards
  import opened Dealing
  import opened Lifecycle
  import opened NewHands
  import opened Numbers
  import opened Reducer
  import opened Sequences
  import opened Table
  import opened Wrappers

  /** The funded seat nearest clockwise. */
  predicate NearestFunded(ps: seq<Player>, from: nat, i: nat)
    requires from < |ps|
  {
    && i < |ps| && IsFunded(ps[i])
    && forall j | 0 <= j < |ps| && IsFunded(ps[j]) :: Gap(|ps|, from, i) <= Gap(|ps|, from, j)
  }

  /** The small blind is left of the button, or the button itself between two players, and the big blind left of it. */
  predicate BlindSeats(ps: seq<Player>, button: nat, sb: nat, bb: nat)
    requires button < |ps|
  {
    && (if Count(ps, IsFunded) == 2 then sb == button else NearestFunded(ps, button, sb))
    && sb < |ps| && NearestFunded(ps, sb, bb) && sb != bb
  }

  /** What a player owes before the cards, cut off at the stack. */
  function Blind(p: Player, i: nat, sb: nat, bb: nat, small: int, big: int): int {
    Min(p.stack, if i == bb then big else if i == sb then small else 0)
  }

  /** The player has paid the blind into the pot; without chips the player sits out. */
  predicate HasPosted(p: Player, q: Player, blind: int) {
    && q.id == p.id && q.seat == p.seat
    && (IsFunded(p) ==> q.stack == p.stack - blind && q.streetCommitted == q.handCommitted == blind
                        && q.status == if p.stack == blind then AllIn else Active)
    && (!IsFunded(p) ==> q.stack == p.stack && q.streetCommitted == q.handCommitted == 0 && q.status == Folded)
  }

  /** The table right after dealing to the seats of ps. */
  predicate HandOpens(ps: seq<Player>, t: State, sb: nat, bb: nat) {
    && |t.players| == |ps| && 0 <= t.buttonSeat < |ps| && BlindSeats(ps, t.buttonSeat, sb, bb)
    && (forall i | 0 <= i < |ps| :: HasPosted(ps[i], t.players[i], Blind(ps[i], i, sb, bb, t.smallBlind, t.bigBlind)))
    && BetIsMax(t.players, t.currentBet)
    && t.minimumRaise == t.bigBlind
    && t.phase in {Preflop, Complete}
    && (t.phase == Complete <==>
        || Count(t.players, IsActive) == 0
        || (Count(t.players, IsActive) == 1
            && forall i | 0 <= i < |ps| && IsActive(t.players[i]) :: t.players[i].streetCommitted == t.currentBet))
    && (t.phase == Preflop ==> NearestFunded(ps, bb, ActorSeat(t)))
  }

  lemma PostedAll(ps: seq<Player>, t: State, sb: nat, bb: nat)
    requires StacksOk(ps) && 0 < t.smallBlind < t.bigBlind && sb != bb
    requires t.players == PostAll(ps, sb, bb, t.smallBlind, t.bigBlind)
    ensures forall i | 0 <= i < |ps| ::
              HasPosted(ps[i], t.players[i], Blind(ps[i], i, sb, bb, t.smallBlind, t.bigBlind))
  {
  }

  lemma DealtOpens(ps: seq<Player>, t: State, sb: nat, bb: nat, c: nat, actor: nat)
    requires JustDealt(t, ps, sb, bb, actor) && Opens(ps, sb, bb, c) && Seated(ps) && StacksOk(ps)
    requires 0 < t.smallBlind < t.bigBlind && 0 <= t.buttonSeat < |ps| && BlindSeats(ps, t.buttonSeat, sb, bb)
    requires t.phase != Complete ==> actor == c
    ensures HandOpens(ps, t, sb, bb)
  {
    PostedAll(ps, t, sb, bb);
    MaxStreetIsMax(t.players);
    PostedTable(ps, sb, bb, t.smallBlind, t.bigBlind);
    SeatOfUnique(t.players, actor);
  }

  lemma FirstBlinds(o: StartOptions)
    requires StartFault(o).None?
    ensures var ps, (sb, bb) := Seats(o.players), StartBlinds(|o.players|, o.buttonSeat);
            0 <= o.buttonSeat < |ps| && BlindSeats(ps, o.buttonSeat, sb, bb)
  {
    var ps := Seats(o.players);
    StartChips(o);
    SeatAfterDiffers(o.buttonSeat, |ps|);
    FullTableNext(ps, o.buttonSeat);
    AfterNearest(ps, o.buttonSeat);
    var sb := StartBlinds(|ps|, o.buttonSeat).0;
    SeatAfterDiffers(sb, |ps|);
    FullTableNext(ps, sb);
    AfterNearest(ps, sb);
  }

  /** A first hand opens with the blinds posted left of the button and the seat after the big blind to act. */
  lemma FirstHandOpens(o: StartOptions)
    requires FirstHand(o).Ok?
    ensures var t, (sb, bb) := FirstHand(o).value, StartBlinds(|o.players|, o.buttonSeat);
            && t.buttonSeat == o.buttonSeat && t.smallBlind == o.smallBlind && t.bigBlind == o.bigBlind
            && t.version == 0 && t.tableId == o.tableId && t.handId == o.handId
            && HandOpens(Seats(o.players), t, sb, bb)
  {
    var seated := Seats(o.players);
    var (sb, bb) := StartBlinds(|seated|, o.buttonSeat);
    StartSeats(o);
    StartBlindsOpen(seated, o.buttonSeat);
    StartChips(o);
    var c := SeatAfter(bb, |seated|);
    var actor := StartActor(PostAll(seated, sb, bb, o.smallBlind, o.bigBlind), o.buttonSeat);
    FirstActor(o, sb, bb, c);
    NewHandFields(EmptyTable(o), o.handId, o.buttonSeat, sb, bb, actor, o.deck);
    FirstBlinds(o);
    DealtOpens(seated, FirstHand(o).value, sb, bb, c, actor);
  }

  lemma NextBlinds(s: State)
    requires ReadyTable(s) && 2 <= Count(s.players, IsFunded)
    ensures var r := NextSeating(s); BlindSeats(s.players, r.button, r.sb, r.bb)
  {
    var ps, r := s.players, NextSeating(s);
    AfterNearest(ps, r.button);
    AfterNearest(ps, r.sb);
    AfterMoves(ps, r.sb);
  }

  /** So does every next hand, from the new button. */
  lemma NextHandOpens(s: State, o: Option<AdvanceOptions>)
    requires Betting(s) && ReadyTable(s) && NextHand(s, o).Ok?
    ensures Count(s.players, IsFunded) >= 2
    ensures var t, r := NextHand(s, o).value, NextSeating(s);
            && t.smallBlind == s.smallBlind && t.bigBlind == s.bigBlind && t.buttonSeat == r.button
            && t.version == s.version + 1 && t.tableId == s.tableId && t.handId == o.value.handId
            && HandOpens(s.players, t, r.sb, r.bb)
  {
    BettingTable(s);
    NextHandFields(s, o);
    NextSeatingOpens(s);
    NextBlinds(s);
    var r := NextSeating(s);
    DealtOpens(s.players, NextHand(s, o).value, r.sb, r.bb, r.actor, r.actor);
  }

  // ---- Which deals are granted ----

  /** A first hand is dealt exactly to two to nine players with different names and chips, a seated button, blinds that
      rise, and a full deck without a repeated card. */
  lemma FirstHandGranted(o: StartOptions)
    ensures FirstHand(o).Ok? <==>
            && 2 <= |o.players| <= 9
            && 0 <= o.buttonSeat < |o.players|
            && (forall i, j | 0 <= i < j < |o.players| :: o.players[i].id != o.players[j].id)
            && 0 < o.smallBlind < o.bigBlind
            && (forall i | 0 <= i < |o.players| :: o.players[i].stack > 0)
            && |o.deck| == 52 && Distinct(o.deck)
  {
  }

  /** A next hand is dealt exactly from a completed and settled table, to a named hand, with a full deck and two to nine
      players with chips. */
  lemma NextHandGranted(s: State, o: Option<AdvanceOptions>)
    requires ReadyTable(s)
    ensures NextHand(s, o).Ok? <==>
            && s.phase == Complete
            && (forall i | 0 <= i < |s.players| ::
                  s.players[i].handCommitted == 0 && s.players[i].streetCommitted == 0)
            && o.Some? && o.value.handId != ""
            && |o.value.deck| == 52 && Distinct(o.value.deck)
            && 2 <= Count(s.players, IsFunded) <= 9
  {
  }
}

/** Dealing the first hand, and moving from a settled hand to the next one. */
module Lifecycle {
  import opened BettingInvariant
  import opened Cards
  import opened Numbers
  import opened Reducer
  import opened Sequences
  import opened Table
  import opened Wrappers

  datatype StartError =
    | BadSeatCount
    | BadButton
    | DuplicateIds
    | BadChips
    | BadDeck
    | NotComplete
    | NotSettled
    | NoHandId

  // ---- Seats around the table ----

  function NextFunded(ps: seq<Player>, seat: nat): Option<nat>
    requires |ps| > 0
  {
    NextSeatFrom(ps, IsFunded, seat, 1)
  }

  method NextFundedPlayer(ps: seq<Player>, seat: nat) returns (next: Option<nat>)
    requires |ps| > 0
    ensures next == NextFunded(ps, seat)
  {
    var offset := 1;
    while offset <= |ps|
      invariant 1 <= offset <= |ps| + 1
      invariant NextFunded(ps, seat) == NextSeatFrom(ps, IsFunded, seat, offset)
    {
      var candidate := (seat + offset) % |ps|;
      if ps[candidate].stack > 0 {
        return Some(candidate);
      }
      offset := offset + 1;
    }
    return None;
  }

  /** The funded seats clockwise from the given distance past the button. */
  function ClockFrom(ps: seq<Player>, button: nat, offset: nat): (r: seq<nat>)
    requires |ps| > 0 && button < |ps|
    ensures forall k | 0 <= k < |r| :: r[k] < |ps|
    decreases |ps| + 1 - offset
  {
    if offset > |ps| then []
    else
      var c := (button + offset) % |ps|;
      var rest := ClockFrom(ps, button, offset + 1);
      if IsFunded(ps[c]) then [c] + rest else rest
  }

  /** The funded seats in dealing order: clockwise, the button last. */
  function Clock(ps: seq<Player>, button: nat): (r: seq<nat>)
    requires |ps| > 0 && button < |ps|
    ensures forall k | 0 <= k < |r| :: r[k] < |ps|
  {
    ClockFrom(ps, button, 1)
  }

  // ---- The new hand ----

  /** Chips after posting: an unfunded seat sits the hand out as folded. */
  function Post(p: Player, forced: int): Player {
    if p.stack <= 0 then p.(status := Folded, streetCommitted := 0, handCommitted := 0)
    else
      var posted := Min(p.stack, forced);
      p.(stack := p.stack - posted, streetCommitted := posted, handCommitted := posted,
         status := if p.stack == posted then AllIn else Active)
  }

  function Forced(i: nat, sb: nat, bb: nat, small: int, big: int): int {
    if i == sb then small else if i == bb then big else 0
  }

  function PostAll(ps: seq<Player>, sb: nat, bb: nat, small: int, big: int): (r: seq<Player>)
    ensures |r| == |ps|
    ensures forall i | 0 <= i < |ps| :: r[i] == Post(ps[i], Forced(i, sb, bb, small, big))
  {
    seq(|ps|, i requires 0 <= i < |ps| => Post(ps[i], Forced(i, sb, bb, small, big)))
  }

  function MaxStreet(ps: seq<Player>): int
    requires |ps| > 0
  {
    if |ps| == 1 then ps[0].streetCommitted
    else Max(MaxStreet(ps[..|ps| - 1]), ps[|ps| - 1].streetCommitted)
  }

  /** The ids of the given seats, in the same order. */
  function IdsAt(ps: seq<Player>, seats: seq<nat>): (ids: seq<PlayerId>)
    requires forall t | 0 <= t < |seats| :: seats[t] < |ps|
    ensures |ids| == |seats|
    ensures forall t | 0 <= t < |ids| :: ids[t] == ps[seats[t]].id
  {
    seq(|seats|, t requires 0 <= t < |seats| => ps[seats[t]].id)
  }

  /** Two cards for each of the first k ids in dealing order, one per round. */
  function HoleCards(ids: seq<PlayerId>, deck: seq<Card>, k: nat): map<PlayerId, seq<Card>>
    requires k <= |ids| && 2 * |ids| <= |deck|
  {
    if k == 0 then map[] else HoleCards(ids, deck, k - 1)[ids[k - 1] := [deck[k - 1], deck[|ids| + k - 1]]]
  }

  /** With one active player left, the betting is over when that player matches the bet. */
  predicate DealtOut(ps: seq<Player>, bet: int) {
    || Count(ps, IsActive) == 0
    || (Count(ps, IsActive) == 1 && AllActiveMatched(ps, bet))
  }

  predicate Distinct52(deck: seq<Card>) { |deck| == DECK_SIZE && Distinct(deck) }

  /** The table as it is right after dealing, with the given seats for the button, the blinds and the actor. */
  function NewHand(s: State, handId: string, button: nat, sb: nat, bb: nat, actor: nat, deck: seq<Card>): State
    requires 0 < |s.players| && button < |s.players| && actor < |s.players|
    requires 2 * |Clock(s.players, button)| <= |deck|
  {
    var ps := PostAll(s.players, sb, bb, s.smallBlind, s.bigBlind);
    var clock := Clock(s.players, button);
    var bet := MaxStreet(ps);
    s.(handId := handId,
       phase := if DealtOut(ps, bet) then Complete else Preflop,
       buttonSeat := button,
       actorId := ps[actor].id,
       currentBet := bet,
       minimumRaise := s.bigBlind,
       players := ps,
       acted := [],
       raiseRights := IdsOf(ps, IsActive),
       lastActedBet := map[],
       deck := deck[2 * |clock|..],
       board := [],
       holeCards := HoleCards(IdsAt(s.players, clock), deck, |clock|))
  }

  // ---- The first hand ----

  datatype Entrant = Entrant(id: PlayerId, stack: int)

  datatype StartOptions = StartOptions(
    tableId: string,
    handId: string,
    players: seq<Entrant>,
    buttonSeat: int,
    smallBlind: int,
    bigBlind: int,
    deck: seq<Card>)

  function Seats(entrants: seq<Entrant>): (r: seq<Player>)
    ensures |r| == |entrants|
    ensures forall i | 0 <= i < |r| :: r[i] == Player(entrants[i].id, i, entrants[i].stack, 0, 0, Active)
  {
    seq(|entrants|, i requires 0 <= i < |entrants| => Player(entrants[i].id, i, entrants[i].stack, 0, 0, Active))
  }

  function StartFault(o: StartOptions): Option<StartError> {
    if |o.players| < 2 || |o.players| > 9 then Some(BadSeatCount)
    else if o.buttonSeat < 0 || o.buttonSeat >= |o.players| then Some(BadButton)
    else if !UniqueIds(Seats(o.players)) then Some(DuplicateIds)
    else if o.smallBlind <= 0 || o.bigBlind <= o.smallBlind
            || (exists i :: 0 <= i < |o.players| && o.players[i].stack <= 0) then Some(BadChips)
    else if !Distinct52(o.deck) then Some(BadDeck)
    else None
  }

  /** The seated, unposted table a first hand is dealt from. */
  function EmptyTable(o: StartOptions): State {
    State(o.tableId, o.handId, Preflop, 0, o.buttonSeat, "", 0, o.bigBlind, o.smallBlind, o.bigBlind,
          Seats(o.players), [], [], map[], [], [], map[])
  }

  /** The first player to act: the given seat if active, else the next active one, else the given seat again. */
  function OpeningSeat(ps: seq<Player>, first: nat): nat
    requires |ps| > 0 && first < |ps|
  {
    if IsActive(ps[first]) then first
    else
      var next := NextSeatFrom(ps, IsActive, first, 1);
      if next.Some? then next.value else first
  }

  function SeatAfter(seat: nat, n: nat): nat
    requires n > 0
  {
    (seat + 1) % n
  }

  function StartBlinds(n: nat, button: nat): (nat, nat)
    requires n > 0
  {
    var sb := if n == 2 then button else SeatAfter(button, n);
    (sb, SeatAfter(sb, n))
  }

  function StartActor(ps: seq<Player>, button: nat): nat
    requires |ps| > 0 && button < |ps|
  {
    OpeningSeat(ps, if |ps| == 2 then button else SeatAfter(StartBlinds(|ps|, button).1, |ps|))
  }

  // ---- The next hand ----

  datatype AdvanceOptions = AdvanceOptions(handId: string, deck: seq<Card>)

  function AdvanceFault(s: State, o: Option<AdvanceOptions>): Option<StartError> {
    if s.phase != Complete then Some(NotComplete)
    else if exists i :: 0 <= i < |s.players| && (s.players[i].handCommitted != 0 || s.players[i].streetCommitted != 0)
    then Some(NotSettled)
    else if o.None? || |o.value.handId| == 0 then Some(NoHandId)
    else if !Distinct52(o.value.deck) then Some(BadDeck)
    else if Count(s.players, IsFunded) < 2 || Count(s.players, IsFunded) > 9 then Some(BadSeatCount)
    else None
  }

  predicate SeatsInOrder(ps: seq<Player>) {
    forall i | 0 <= i < |ps| :: ps[i].seat == i
  }
}

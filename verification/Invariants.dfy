/** The executable check that every table state must pass. */
module Invariants {
  import opened Board
  import opened Cards
  import opened Lifecycle
  import opened Reducer
  import opened Sequences
  import opened Table
  import opened Wrappers

  datatype Violation =
    | PlayerCount
    | RepeatedId
    | BadSeats
    | ButtonNotSeated
    | BadBlinds
    | BadMinimumRaise
    | BadVersion
    | ActorNotSeated
    | NegativeChips(id: PlayerId)
    | StreetOverHand(id: PlayerId)
    | ActiveWithoutChips(id: PlayerId)
    | AllInWithChips(id: PlayerId)
    | ActorIneligible
    | NegativeBet
    | BetTrails
    | UnknownOwner
    | NegativeMetadata
    | BadBoardCount
    | BadHands
    | MissingHand
    | DuplicateCard

  function PlayerViolation(p: Player): Option<Violation> {
    if p.stack < 0 || p.streetCommitted < 0 || p.handCommitted < 0 then Some(NegativeChips(p.id))
    else if p.streetCommitted > p.handCommitted then Some(StreetOverHand(p.id))
    else if p.status == Active && p.stack == 0 then Some(ActiveWithoutChips(p.id))
    else if p.status == AllIn && p.stack != 0 then Some(AllInWithChips(p.id))
    else None
  }

  function FirstPlayerViolation(ps: seq<Player>): Option<Violation> {
    if |ps| == 0 then None
    else
      var v := PlayerViolation(ps[0]);
      if v.Some? then v else FirstPlayerViolation(ps[1..])
  }

  predicate SeatsOk(ps: seq<Player>) {
    && (forall i | 0 <= i < |ps| :: ps[i].seat >= 0)
    && (forall i, j | 0 <= i < j < |ps| :: ps[i].seat != ps[j].seat)
  }

  predicate OwnersKnown(s: State) {
    && (forall id | id in s.acted :: IsPlayer(s.players, id))
    && (forall id | id in s.raiseRights :: IsPlayer(s.players, id))
    && (forall id | id in s.lastActedBet :: IsPlayer(s.players, id))
  }

  predicate BoardCountOk(s: State) {
    if s.phase == Complete then BoardSize(|s.board|) else |s.board| == SizeAt(s.phase)
  }

  predicate HandsOk(s: State) {
    forall id | id in s.holeCards :: IsPlayer(s.players, id) && |s.holeCards[id]| == 2
  }

  predicate CardBacked(s: State) { |s.deck| > 0 || |s.board| > 0 || |s.holeCards| > 0 }

  predicate HandsComplete(s: State) {
    forall i | 0 <= i < |s.players| && Participated(s.players[i]) ::
      s.players[i].id in s.holeCards && |s.holeCards[s.players[i].id]| == 2
  }

  function TableViolation(s: State): Option<Violation> {
    if |s.players| < 2 || |s.players| > 9 then Some(PlayerCount)
    else if !UniqueIds(s.players) then Some(RepeatedId)
    else if !SeatsOk(s.players) then Some(BadSeats)
    else if !(exists i :: 0 <= i < |s.players| && s.players[i].seat == s.buttonSeat) then Some(ButtonNotSeated)
    else if s.smallBlind <= 0 || s.bigBlind <= 0 || s.smallBlind >= s.bigBlind then Some(BadBlinds)
    else if s.minimumRaise <= 0 then Some(BadMinimumRaise)
    else if s.version < 0 then Some(BadVersion)
    else if !IsPlayer(s.players, s.actorId) then Some(ActorNotSeated)
    else FirstPlayerViolation(s.players)
  }

  function BettingViolation(s: State): Option<Violation>
    requires |s.players| > 0
  {
    var actor := SeatOf(s.players, s.actorId);
    if s.phase != Complete
       && (actor == |s.players| || s.players[actor].status != Active || s.players[actor].stack == 0)
    then Some(ActorIneligible)
    else if s.currentBet < 0 then Some(NegativeBet)
    else if s.currentBet < MaxStreet(s.players) then Some(BetTrails)
    else if !OwnersKnown(s) then Some(UnknownOwner)
    else if exists id :: id in s.lastActedBet && s.lastActedBet[id] < 0 then Some(NegativeMetadata)
    else None
  }

  function CardViolation(s: State): Option<Violation> {
    if !BoardCountOk(s) then Some(BadBoardCount)
    else if !HandsOk(s) then Some(BadHands)
    else if CardBacked(s) && !HandsComplete(s) then Some(MissingHand)
    else if !Distinct(AllCards(s)) then Some(DuplicateCard)
    else None
  }

  /** The first violated invariant, if any; the source throws it. */
  function AssertInvariants(s: State): Option<Violation> {
    if TableViolation(s).Some? then TableViolation(s)
    else if |s.players| > 0 && BettingViolation(s).Some? then BettingViolation(s)
    else CardViolation(s)
  }
}

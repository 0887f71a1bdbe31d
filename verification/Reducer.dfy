/** The betting reducer: which commands are accepted and what state an accepted one leads to. */
module Reducer {
  import opened Cards
  import opened Numbers
  import opened Sequences
  import opened Table
  import opened Wrappers

  datatype ErrorCode = NotActor | StaleVersion | IllegalAction | InvalidAmount

  datatype Transition = Transition(state: State, events: seq<Event>)

  datatype CommandResult = Accepted(transition: Transition) | Rejected(code: ErrorCode, version: int)

  function NextPhase(phase: Phase): Phase {
    match phase
    case Preflop => Flop
    case Flop => Turn
    case Turn => River
    case _ => Complete
  }

  predicate CanAct(p: Player) { p.status == Active && p.stack > 0 }

  function NextActive(ps: seq<Player>, seat: nat): Option<nat>
    requires |ps| > 0
  {
    NextSeatFrom(ps, CanAct, seat, 1)
  }

  method NextActivePlayer(ps: seq<Player>, seat: nat) returns (next: Option<nat>)
    requires |ps| > 0
    ensures next == NextActive(ps, seat)
  {
    var offset := 1;
    while offset <= |ps|
      invariant 1 <= offset <= |ps| + 1
      invariant NextActive(ps, seat) == NextSeatFrom(ps, CanAct, seat, offset)
    {
      var candidate := (seat + offset) % |ps|;
      if CanAct(ps[candidate]) {
        return Some(candidate);
      }
      offset := offset + 1;
    }
    return None;
  }

  function AddUnique(ids: seq<PlayerId>, id: PlayerId): (r: seq<PlayerId>)
    ensures forall x :: x in r <==> x in ids || x == id
  {
    if id in ids then ids else ids + [id]
  }

  function Without(ids: seq<PlayerId>, id: PlayerId): (r: seq<PlayerId>)
    ensures forall x :: x in r <==> x in ids && x != id
  {
    if |ids| == 0 then []
    else if ids[0] == id then Without(ids[1..], id)
    else [ids[0]] + Without(ids[1..], id)
  }

  /** The board after a street card burn, with the rest of the deck. */
  function DealBoard(board: seq<Card>, deck: seq<Card>, phase: Phase): (seq<Card>, seq<Card>) {
    if |deck| == 0 || phase == Complete then (board, deck)
    else if phase == Flop then (board + Slice(deck, 1, 4), Slice(deck, 4, |deck|))
    else (board + Slice(deck, 1, 2), Slice(deck, 2, |deck|))
  }

  /** The part of a sequence between two positions, both cut off at its end. */
  function Slice(s: seq<Card>, from: nat, to: nat): seq<Card> {
    if from >= |s| || to <= from then []
    else if to > |s| then s[from..]
    else s[from..to]
  }

  predicate AllActiveMatched(ps: seq<Player>, bet: int) {
    forall i | 0 <= i < |ps| :: ps[i].status == Active ==> ps[i].streetCommitted == bet
  }

  predicate Done(s: State, i: nat)
    requires i < |s.players|
  {
    s.players[i].id in s.acted && s.players[i].streetCommitted == s.currentBet
  }

  predicate AllActiveDone(s: State) {
    forall i | 0 <= i < |s.players| :: s.players[i].status == Active ==> Done(s, i)
  }

  function ResetStreet(ps: seq<Player>): (r: seq<Player>)
    ensures |r| == |ps|
    ensures forall i | 0 <= i < |ps| :: r[i] == ps[i].(streetCommitted := 0)
  {
    seq(|ps|, i requires 0 <= i < |ps| => ps[i].(streetCommitted := 0))
  }

  predicate HandOver(s: State) {
    || Count(s.players, IsContender) <= 1
    || (Count(s.players, IsActive) <= 1 && AllActiveMatched(s.players, s.currentBet))
  }

  predicate StreetClosed(s: State) {
    Count(s.players, IsActive) > 1 && AllActiveDone(s)
  }

  function Completed(s: State): State {
    s.(version := s.version + 1, phase := Complete, raiseRights := [])
  }

  function NextStreet(s: State): State
    requires |s.players| > 0 && s.buttonSeat >= 0
  {
    var phase := NextPhase(s.phase);
    var (board, deck) := DealBoard(s.board, s.deck, phase);
    var ps := ResetStreet(s.players);
    var first := NextActive(ps, s.buttonSeat);
    s.(version := s.version + 1,
       phase := phase,
       actorId := if first.Some? then ps[first.value].id else s.actorId,
       currentBet := 0,
       minimumRaise := s.bigBlind,
       players := ps,
       acted := [],
       raiseRights := IdsOf(ps, IsActive),
       lastActedBet := map[],
       board := board,
       deck := deck)
  }

  function PassTurn(s: State, seat: nat): State
    requires |s.players| > 0
  {
    var next := NextActive(s.players, seat);
    s.(version := s.version + 1,
       actorId := if next.Some? then s.players[next.value].id else s.actorId)
  }

  /** Ends the hand, closes the street or passes the turn, once the acting player's chips have moved. */
  function FinishOrPass(s: State, seat: nat, events: seq<Event>): Transition
    requires |s.players| > 0 && s.buttonSeat >= 0
  {
    if HandOver(s) then Transition(Completed(s), events)
    else if StreetClosed(s) then
      var next := NextStreet(s);
      Transition(next, events + [StreetCompleted(next.phase)])
    else Transition(PassTurn(s, seat), events)
  }

  function ToCall(s: State, p: Player): int { Max(0, s.currentBet - p.streetCommitted) }

  function AmountError(s: State, p: Player, action: Action): Option<ErrorCode>
    requires action.Bet? || action.Raise?
  {
    var maximum := p.streetCommitted + p.stack;
    if action.amount <= 0 || action.amount > maximum then Some(InvalidAmount)
    else if action.Bet? then
      if s.currentBet != 0 then Some(IllegalAction)
      else if action.amount < s.minimumRaise && action.amount != maximum then Some(InvalidAmount)
      else None
    else if s.currentBet == 0 || action.amount <= s.currentBet || p.id !in s.raiseRights then Some(IllegalAction)
    else if action.amount - s.currentBet < s.minimumRaise && action.amount != maximum then Some(InvalidAmount)
    else None
  }

  /** Why the command is refused, if it is. */
  function Refusal(s: State, c: Command): Option<ErrorCode> {
    if c.expectedVersion.Some? && c.expectedVersion.value != s.version then Some(StaleVersion)
    else if c.playerId != s.actorId then Some(NotActor)
    else
      var i := SeatOf(s.players, c.playerId);
      if i == |s.players| || s.players[i].status != Active || s.phase == Complete then Some(IllegalAction)
      else ActionRefusal(s, s.players[i], c.action)
  }

  function ActionRefusal(s: State, p: Player, action: Action): Option<ErrorCode> {
    match action
    case Fold => None
    case Check => if ToCall(s, p) != 0 then Some(IllegalAction) else None
    case Call => if ToCall(s, p) == 0 then Some(IllegalAction) else None
    case _ => AmountError(s, p, action)
  }

  function Pay(p: Player, paid: int): Player {
    p.(stack := p.stack - paid,
       streetCommitted := p.streetCommitted + paid,
       handCommitted := p.handCommitted + paid,
       status := if p.stack == paid then AllIn else p.status)
  }

  /** The acting player is recorded as having acted, facing `wager`, and loses the right to raise. */
  function Recorded(s: State, i: nat, wager: int): State
    requires i < |s.players|
  {
    var id := s.players[i].id;
    s.(acted := AddUnique(s.acted, id),
       raiseRights := Without(s.raiseRights, id),
       lastActedBet := s.lastActedBet[id := wager])
  }

  function AfterFold(s: State, i: nat): State
    requires i < |s.players|
  {
    Recorded(s, i, s.currentBet).(players := s.players[i := s.players[i].(status := Folded)])
  }

  function AfterCheck(s: State, i: nat): State
    requires i < |s.players|
  {
    Recorded(s, i, s.currentBet)
  }

  function AfterCall(s: State, i: nat): State
    requires i < |s.players|
  {
    var p := s.players[i];
    Recorded(s, i, s.currentBet).(players := s.players[i := Pay(p, Min(ToCall(s, p), p.stack))])
  }

  function OtherActive(id: PlayerId): Player -> bool {
    (p: Player) => p.status == Active && p.id != id
  }

  /** Who may raise after a raise smaller than the minimum: those who still could, and those who by now
      face at least a full raise more than when they last acted. */
  function Reopened(rights: seq<PlayerId>, last: map<PlayerId, int>, bet: int, minimumRaise: int): Player -> bool {
    (p: Player) =>
      p.status == Active && (p.id in rights || (p.id in last && bet - last[p.id] >= minimumRaise))
  }

  function AfterWager(s: State, i: nat, action: Action): State
    requires i < |s.players| && (action.Bet? || action.Raise?)
  {
    var p := s.players[i];
    var size := if action.Bet? then action.amount else action.amount - s.currentBet;
    var ps := s.players[i := Pay(p, action.amount - p.streetCommitted)];
    var base := Recorded(s, i, action.amount).(players := ps, currentBet := action.amount);
    if size >= s.minimumRaise then
      base.(minimumRaise := size, acted := [p.id], raiseRights := IdsOf(ps, OtherActive(p.id)))
    else if action.Raise? then
      base.(raiseRights :=
        IdsOf(ps, Reopened(base.raiseRights, base.lastActedBet, action.amount, s.minimumRaise)))
    else base
  }

  /** The state after the acting player's decision, before the turn passes. */
  function AfterAction(s: State, i: nat, action: Action): State
    requires i < |s.players|
  {
    match action
    case Fold => AfterFold(s, i)
    case Check => AfterCheck(s, i)
    case Call => AfterCall(s, i)
    case _ => AfterWager(s, i, action)
  }

  function EventOf(s: State, i: nat, action: Action): Event
    requires i < |s.players|
  {
    var p := s.players[i];
    match action
    case Fold => PlayerFolded(p.id)
    case Check => PlayerChecked(p.id)
    case Call => PlayerCalled(p.id, Min(ToCall(s, p), p.stack))
    case Bet(amount) => PlayerBet(p.id, amount)
    case Raise(amount) => PlayerRaised(p.id, amount, amount - s.currentBet >= s.minimumRaise)
  }

  /** What the reducer answers to a command. */
  function Apply(s: State, c: Command): CommandResult
    requires |s.players| > 0 && s.buttonSeat >= 0
    requires forall i | 0 <= i < |s.players| :: s.players[i].seat >= 0
  {
    var refusal := Refusal(s, c);
    if refusal.Some? then Rejected(refusal.value, s.version)
    else
      var i := SeatOf(s.players, c.playerId);
      Accepted(FinishOrPass(AfterAction(s, i, c.action), s.players[i].seat, [EventOf(s, i, c.action)]))
  }

  /** The middle of the reducer as written: local copies of the betting fields, reassigned action by action. */
  method MoveChips(s: State, index: nat, action: Action) returns (next: State, event: Event)
    requires index < |s.players|
    ensures next == AfterAction(s, index, action)
    ensures event == EventOf(s, index, action)
  {
    var player := s.players[index];
    var players := s.players;
    var acted := AddUnique(s.acted, player.id);
    var raiseRights := Without(s.raiseRights, player.id);
    var currentBet := s.currentBet;
    var minimumRaise := s.minimumRaise;
    var incompleteRaise := false;
    if action.Fold? {
      players := players[index := player.(status := Folded)];
      event := PlayerFolded(player.id);
    } else if action.Check? {
      event := PlayerChecked(player.id);
    } else if action.Call? {
      var paid := Min(ToCall(s, player), player.stack);
      players := players[index := Pay(player, paid)];
      event := PlayerCalled(player.id, paid);
    } else {
      var paid := action.amount - player.streetCommitted;
      var raiseSize := action.amount - s.currentBet;
      var fullRaise := if action.Bet? then action.amount >= s.minimumRaise else raiseSize >= s.minimumRaise;
      incompleteRaise := action.Raise? && !fullRaise;
      players := players[index := Pay(player, paid)];
      currentBet := action.amount;
      if fullRaise {
        minimumRaise := if action.Bet? then action.amount else raiseSize;
        acted := [player.id];
        raiseRights := IdsOf(players, OtherActive(player.id));
      }
      event :=
        if action.Bet? then PlayerBet(player.id, action.amount)
        else PlayerRaised(player.id, action.amount, fullRaise);
    }
    var lastActedBet := s.lastActedBet[player.id := currentBet];
    if incompleteRaise {
      raiseRights := IdsOf(players, Reopened(raiseRights, lastActedBet, currentBet, minimumRaise));
    }
    next := s.(players := players, acted := acted, raiseRights := raiseRights,
               lastActedBet := lastActedBet, currentBet := currentBet, minimumRaise := minimumRaise);
  }

  /** The reducer as written: guards first, then the chips, then the turn. */
  method ApplyCommandResult(s: State, c: Command) returns (r: CommandResult)
    requires |s.players| > 0 && s.buttonSeat >= 0
    requires forall i | 0 <= i < |s.players| :: s.players[i].seat >= 0
    ensures r == Apply(s, c)
  {
    if c.expectedVersion.Some? && c.expectedVersion.value != s.version {
      return Rejected(StaleVersion, s.version);
    }
    if c.playerId != s.actorId {
      return Rejected(NotActor, s.version);
    }
    var index := SeatOf(s.players, c.playerId);
    if index == |s.players| || s.players[index].status != Active || s.phase == Complete {
      return Rejected(IllegalAction, s.version);
    }
    var player := s.players[index];
    var toCall := ToCall(s, player);
    if c.action.Check? && toCall != 0 {
      return Rejected(IllegalAction, s.version);
    }
    if c.action.Call? && toCall == 0 {
      return Rejected(IllegalAction, s.version);
    }
    if c.action.Bet? || c.action.Raise? {
      var error := AmountError(s, player, c.action);
      if error.Some? {
        return Rejected(error.value, s.version);
      }
    }
    var next, event := MoveChips(s, index, c.action);
    r := Accepted(FinishOrPass(next, player.seat, [event]));
  }

  function LegalActions(s: State, playerId: PlayerId): seq<LegalAction> {
    var i := SeatOf(s.players, playerId);
    if playerId != s.actorId || s.phase == Complete || i == |s.players| || s.players[i].status != Active then []
    else
      var p := s.players[i];
      var maximum := p.streetCommitted + p.stack;
      var passive :=
        if ToCall(s, p) > 0 then [MayFold, MayCall(Min(ToCall(s, p), p.stack))] else [MayCheck];
      if s.currentBet == 0 && maximum > 0 then
        passive + [MayBet(Min(s.minimumRaise, maximum), maximum)]
      else if p.id in s.raiseRights && maximum > s.currentBet then
        passive + [MayRaise(Min(s.currentBet + s.minimumRaise, maximum), maximum)]
      else passive
  }

  /** The listing as written: actions pushed onto a list. */
  method ListLegalActions(s: State, playerId: PlayerId) returns (actions: seq<LegalAction>)
    ensures actions == LegalActions(s, playerId)
  {
    actions := [];
    if playerId != s.actorId || s.phase == Complete {
      return;
    }
    var i := SeatOf(s.players, playerId);
    if i == |s.players| || s.players[i].status != Active {
      return;
    }
    var player := s.players[i];
    var toCall := ToCall(s, player);
    var maximum := player.streetCommitted + player.stack;
    if toCall > 0 {
      actions := actions + [MayFold, MayCall(Min(toCall, player.stack))];
    } else {
      actions := actions + [MayCheck];
    }
    if s.currentBet == 0 && maximum > 0 {
      actions := actions + [MayBet(Min(s.minimumRaise, maximum), maximum)];
    } else if player.id in s.raiseRights && maximum > s.currentBet {
      actions := actions + [MayRaise(Min(s.currentBet + s.minimumRaise, maximum), maximum)];
    }
  }
}

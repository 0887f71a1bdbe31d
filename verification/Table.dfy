/** The poker table: players, betting state and commands. */
module Table {
  import opened Cards
  import opened Sequences
  import opened Wrappers

  type PlayerId = string

  datatype Phase = Preflop | Flop | Turn | River | Complete

  datatype Status = Active | Folded | AllIn

  datatype Player = Player(
    id: PlayerId,
    seat: int,
    stack: int,
    streetCommitted: int,
    handCommitted: int,
    status: Status)

  datatype State = State(
    tableId: string,
    handId: string,
    phase: Phase,
    version: int,
    buttonSeat: int,
    actorId: PlayerId,
    currentBet: int,
    minimumRaise: int,
    smallBlind: int,
    bigBlind: int,
    players: seq<Player>,
    acted: seq<PlayerId>,
    raiseRights: seq<PlayerId>,
    lastActedBet: map<PlayerId, int>,
    deck: seq<Card>,
    board: seq<Card>,
    holeCards: map<PlayerId, seq<Card>>)

  datatype Action = Fold | Check | Call | Bet(amount: int) | Raise(amount: int)

  datatype Command = Command(playerId: PlayerId, expectedVersion: Option<int>, action: Action)

  datatype Event =
    | PlayerFolded(playerId: PlayerId)
    | PlayerChecked(playerId: PlayerId)
    | PlayerCalled(playerId: PlayerId, amount: int)
    | PlayerBet(playerId: PlayerId, amount: int)
    | PlayerRaised(playerId: PlayerId, amount: int, fullRaise: bool)
    | StreetCompleted(phase: Phase)

  datatype LegalAction =
    | MayFold
    | MayCheck
    | MayCall(amount: int)
    | MayBet(minAmount: int, maxAmount: int)
    | MayRaise(minAmount: int, maxAmount: int)

  predicate IsActive(p: Player) { p.status == Active }

  predicate IsContender(p: Player) { p.status != Folded }

  predicate IsFunded(p: Player) { p.stack > 0 }

  function StackOf(p: Player): int { p.stack }

  /** Seats are array positions and no two players share an id. */
  predicate Seated(ps: seq<Player>) {
    && 2 <= |ps| <= 9
    && (forall i | 0 <= i < |ps| :: ps[i].seat == i)
    && UniqueIds(ps)
  }

  predicate UniqueIds(ps: seq<Player>) {
    forall i, j | 0 <= i < j < |ps| :: ps[i].id != ps[j].id
  }

  predicate IsPlayer(ps: seq<Player>, id: PlayerId) {
    exists i :: 0 <= i < |ps| && ps[i].id == id
  }

  function PlayerWith(id: PlayerId): Player -> bool { (p: Player) => p.id == id }

  /** The position of the player with this id, or the number of players when there is none. */
  function SeatOf(ps: seq<Player>, id: PlayerId): (i: nat)
    ensures i <= |ps|
    ensures i < |ps| ==> ps[i].id == id
    ensures forall k | 0 <= k < i :: ps[k].id != id
  {
    FirstWhere(ps, PlayerWith(id))
  }

  /** The ids of the players satisfying f, in seat order. */
  function IdsOf(ps: seq<Player>, f: Player -> bool): (ids: seq<PlayerId>)
    ensures forall id :: id in ids <==> exists i :: 0 <= i < |ps| && ps[i].id == id && f(ps[i])
  {
    if |ps| == 0 then []
    else
      var n := |ps| - 1;
      var before := IdsOf(ps[..n], f);
      assert forall i | 0 <= i < n :: ps[..n][i] == ps[i];
      var ids := if f(ps[n]) then before + [ps[n].id] else before;
      assert forall id :: id in before <==> exists i :: 0 <= i < n && ps[i].id == id && f(ps[i]) by {
        assert forall id :: id in before ==> exists i :: 0 <= i < n && ps[..n][i].id == id && f(ps[..n][i]);
        forall id | exists i :: 0 <= i < n && ps[i].id == id && f(ps[i]) ensures id in before {
          var i :| 0 <= i < n && ps[i].id == id && f(ps[i]);
          assert ps[..n][i].id == id && f(ps[..n][i]);
        }
      }
      ids
  }

  lemma IdsOfAt(ps: seq<Player>, f: Player -> bool, i: nat)
    requires UniqueIds(ps) && i < |ps|
    ensures ps[i].id in IdsOf(ps, f) <==> f(ps[i])
  {
  }

  lemma {:induction false} IdsCounted(ps: seq<Player>, f: Player -> bool)
    ensures |IdsOf(ps, f)| == Count(ps, f)
  {
    if |ps| > 0 {
      IdsCounted(ps[..|ps| - 1], f);
    }
  }

  /** The seat of the first player satisfying `can` at clockwise distance `offset` or more from `seat`. */
  function NextSeatFrom(ps: seq<Player>, can: Player -> bool, seat: nat, offset: nat): (next: Option<nat>)
    requires |ps| > 0
    ensures next.Some? ==> next.value < |ps| && can(ps[next.value])
    decreases |ps| + 1 - offset
  {
    if offset > |ps| then None
    else if can(ps[(seat + offset) % |ps|]) then Some((seat + offset) % |ps|)
    else NextSeatFrom(ps, can, seat, offset + 1)
  }
}

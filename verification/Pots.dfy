/** Side pots, showdown and settlement. */
module Pots {
  import opened Cards
  import opened Evaluator
  import opened HandRanking
  import opened Numbers
  import opened Sequences
  import opened SevenCards
  import opened Table
  import opened Wrappers

  datatype Pot = Pot(amount: int, eligible: seq<PlayerId>)

  // ---- Layers of commitment ----

  predicate Ascends(s: seq<int>) {
    forall i, j | 0 <= i < j < |s| :: s[i] < s[j]
  }

  function InsertLevel(x: int, s: seq<int>): (r: seq<int>)
    requires Ascends(s)
    ensures Ascends(r)
    ensures forall y :: y in r <==> y == x || y in s
  {
    if |s| == 0 then [x]
    else if x == s[0] then s
    else if x < s[0] then [x] + s
    else
      var rest := InsertLevel(x, s[1..]);
      assert forall y | y in rest :: s[0] < y;
      assert forall k | 0 <= k < |rest| :: rest[k] in rest;
      [s[0]] + rest
  }

  /** The distinct positive commitments, lowest first. */
  function Levels(ps: seq<Player>): (r: seq<int>)
    ensures Ascends(r)
    ensures forall x :: x in r <==> x > 0 && exists i :: 0 <= i < |ps| && ps[i].handCommitted == x
  {
    if |ps| == 0 then []
    else
      var n := |ps| - 1;
      var before := Levels(ps[..n]);
      assert forall i | 0 <= i < n :: ps[..n][i] == ps[i];
      assert forall x :: x in before <==> x > 0 && exists i :: 0 <= i < n && ps[i].handCommitted == x by {
        forall x | x > 0 && exists i :: 0 <= i < n && ps[i].handCommitted == x ensures x in before {
          var i :| 0 <= i < n && ps[i].handCommitted == x;
          assert ps[..n][i].handCommitted == x;
        }
        forall x | x in before ensures x > 0 && exists i :: 0 <= i < n && ps[i].handCommitted == x {
          var i :| 0 <= i < n && ps[..n][i].handCommitted == x;
          assert ps[i].handCommitted == x;
        }
      }
      if ps[n].handCommitted > 0 then InsertLevel(ps[n].handCommitted, before) else before
  }

  function Contributes(level: int): Player -> bool {
    (p: Player) => p.handCommitted >= level
  }

  function EligibleAt(level: int): Player -> bool {
    (p: Player) => p.handCommitted >= level && p.status != Folded
  }

  function Below(levels: seq<int>, k: nat): int
    requires k <= |levels|
  {
    if k == 0 then 0 else levels[k - 1]
  }

  /** Chips in the k-th layer: what everyone who reaches it put in above the layer below. */
  function LayerAmount(ps: seq<Player>, levels: seq<int>, k: nat): int
    requires k < |levels|
  {
    (levels[k] - Below(levels, k)) * Count(ps, Contributes(levels[k]))
  }

  function Uncontested(ps: seq<Player>, level: int): bool { Count(ps, Contributes(level)) == 1 }

  /** The pots of the first k layers. */
  function PotsTo(ps: seq<Player>, levels: seq<int>, k: nat): seq<Pot>
    requires k <= |levels|
  {
    if k == 0 then []
    else if Uncontested(ps, levels[k - 1]) then PotsTo(ps, levels, k - 1)
    else PotsTo(ps, levels, k - 1)
         + [Pot(LayerAmount(ps, levels, k - 1), IdsOf(ps, EligibleAt(levels[k - 1])))]
  }

  /** What the first k layers hand back to a player who alone reached them. */
  function RefundTo(ps: seq<Player>, levels: seq<int>, k: nat, id: PlayerId): int
    requires k <= |levels|
  {
    if k == 0 then 0
    else RefundTo(ps, levels, k - 1, id)
         + (if Uncontested(ps, levels[k - 1]) && id in IdsOf(ps, Contributes(levels[k - 1]))
            then LayerAmount(ps, levels, k - 1) else 0)
  }

  function PotsOf(ps: seq<Player>): seq<Pot> { PotsTo(ps, Levels(ps), |Levels(ps)|) }

  function RefundOf(ps: seq<Player>, id: PlayerId): int { RefundTo(ps, Levels(ps), |Levels(ps)|, id) }

  function Owed(m: map<PlayerId, int>, id: PlayerId): int { if id in m then m[id] else 0 }

  method BuildPots(ps: seq<Player>) returns (pots: seq<Pot>, refunds: map<PlayerId, int>)
    ensures pots == PotsOf(ps)
    ensures forall id :: Owed(refunds, id) == RefundOf(ps, id)
  {
    var levels := Levels(ps);
    pots, refunds := [], map[];
    var previous := 0;
    for k := 0 to |levels|
      invariant previous == Below(levels, k)
      invariant pots == PotsTo(ps, levels, k)
      invariant forall id :: Owed(refunds, id) == RefundTo(ps, levels, k, id)
    {
      var level := levels[k];
      var contributors := IdsOf(ps, Contributes(level));
      IdsCounted(ps, Contributes(level));
      var amount := (level - previous) * |contributors|;
      if |contributors| == 1 {
        refunds := refunds[contributors[0] := Owed(refunds, contributors[0]) + amount];
        assert forall id :: id in contributors <==> id == contributors[0];
      } else {
        pots := pots + [Pot(amount, IdsOf(ps, EligibleAt(level)))];
      }
      previous := level;
    }
  }

  // ---- The board that a showdown needs ----

  datatype SettleError =
    | HandNotComplete
    | BadBoard(cards: nat)
    | DeckExhausted
    | NoEligiblePlayer
    | CannotEvaluate(id: PlayerId)

  datatype Cut = Cut(board: seq<Card>, deck: seq<Card>)

  function RunOutFrom(board: seq<Card>, deck: seq<Card>): Result<Cut, SettleError>
    decreases 5 - |board|
  {
    if |board| >= 5 then Ok(Cut(board, deck))
    else if |deck| < 2 then Err(DeckExhausted)
    else RunOutFrom(board + [deck[1]], deck[2..])
  }

  function RunOut(board: seq<Card>, deck: seq<Card>): Result<Cut, SettleError> {
    if |board| !in {0, 3, 4, 5} then Err(BadBoard(|board|))
    else if |board| == 0 then
      if |deck| < 4 then Err(DeckExhausted) else RunOutFrom(board + deck[1..4], deck[4..])
    else RunOutFrom(board, deck)
  }

  method RunOutBoard(board0: seq<Card>, deck0: seq<Card>) returns (r: Result<Cut, SettleError>)
    ensures r == RunOut(board0, deck0)
  {
    var board, deck := board0, deck0;
    if |board| !in {0, 3, 4, 5} {
      return Err(BadBoard(|board|));
    }
    if |board| == 0 {
      if |deck| < 4 {
        return Err(DeckExhausted);
      }
      board := board + deck[1..4];
      deck := deck[4..];
    }
    while |board| < 5
      invariant RunOutFrom(board, deck) == RunOut(board0, deck0)
      decreases 5 - |board|
    {
      if |deck| < 2 {
        return Err(DeckExhausted);
      }
      board := board + [deck[1]];
      deck := deck[2..];
    }
    return Ok(Cut(board, deck));
  }

  // ---- Winners ----

  predicate BeatenByNone(id: PlayerId, ids: seq<PlayerId>, score: PlayerId -> HandScore) {
    forall k | 0 <= k < |ids| :: Compare(score(id), score(ids[k])) >= 0
  }

  /** Those of the ids that nobody in the list `against` beats, in order. */
  function TopIds(ids: seq<PlayerId>, against: seq<PlayerId>, score: PlayerId -> HandScore): (r: seq<PlayerId>)
    ensures forall id :: id in r <==> id in ids && BeatenByNone(id, against, score)
  {
    if |ids| == 0 then []
    else
      var n := |ids| - 1;
      assert ids == ids[..n] + [ids[n]];
      var before := TopIds(ids[..n], against, score);
      if BeatenByNone(ids[n], against, score) then before + [ids[n]] else before
  }

  /** Exactly the ids with the highest score, in the order listed. */
  function BestOf(ids: seq<PlayerId>, score: PlayerId -> HandScore): seq<PlayerId> { TopIds(ids, ids, score) }

  /** Two hole cards, five board cards, all different. */
  predicate Showable(s: State, id: PlayerId) {
    && id in s.holeCards
    && |s.holeCards[id]| == 2
    && |s.board| == 5
    && Distinct(s.holeCards[id] + s.board)
  }

  function ShowdownScore(s: State): PlayerId -> HandScore {
    (id: PlayerId) =>
      if Showable(s, id) then BestOfSeven(s.holeCards[id] + s.board) else HandScore(HighCard, [])
  }

  function FirstUnshowable(s: State, ids: seq<PlayerId>): Option<PlayerId> {
    if |ids| == 0 then None
    else if !Showable(s, ids[0]) then Some(ids[0])
    else FirstUnshowable(s, ids[1..])
  }

  // ---- The order of odd chips ----

  function MaxSeat(ps: seq<Player>): int {
    if |ps| == 0 then 0 else Max(MaxSeat(ps[..|ps| - 1]), ps[|ps| - 1].seat)
  }

  /** Clockwise distance from the button, the button itself being the farthest. */
  function ClockDistance(ps: seq<Player>, button: int): PlayerId -> int
    requires forall i | 0 <= i < |ps| :: ps[i].seat >= 0
  {
    var span := MaxSeat(ps) + 1;
    MaxSeatNonnegative(ps);
    (id: PlayerId) =>
      var i := SeatOf(ps, id);
      var seat := if i < |ps| then ps[i].seat else button;
      var d := (seat - button + span) % span;
      if d == 0 then span else d
  }

  lemma {:induction false} MaxSeatNonnegative(ps: seq<Player>)
    ensures MaxSeat(ps) >= 0
  {
    if |ps| > 0 {
      MaxSeatNonnegative(ps[..|ps| - 1]);
    }
  }

  predicate SortedBy(ids: seq<PlayerId>, key: PlayerId -> int) {
    forall i, j | 0 <= i < j < |ids| :: key(ids[i]) <= key(ids[j])
  }

  function InsertBy(id: PlayerId, ids: seq<PlayerId>, key: PlayerId -> int): (r: seq<PlayerId>)
    requires SortedBy(ids, key)
    ensures SortedBy(r, key) && |r| == |ids| + 1
    ensures forall x :: x in r <==> x == id || x in ids
  {
    if |ids| == 0 then [id]
    else if key(id) < key(ids[0]) then [id] + ids
    else
      var rest := InsertBy(id, ids[1..], key);
      assert forall x | x in rest :: key(ids[0]) <= key(x);
      assert forall k | 0 <= k < |rest| :: rest[k] in rest;
      [ids[0]] + rest
  }

  /** The ids by increasing key. */
  function SortBy(ids: seq<PlayerId>, key: PlayerId -> int): (r: seq<PlayerId>)
    ensures SortedBy(r, key) && |r| == |ids|
    ensures forall x :: x in r <==> x in ids
  {
    if |ids| == 0 then []
    else InsertBy(ids[|ids| - 1], SortBy(ids[..|ids| - 1], key), key)
  }

  // ---- Paying the pots ----

  /** What one pot pays: an equal share to each winner, and one odd chip to each of the first in order. */
  function Award(amount: int, winners: seq<PlayerId>, order: seq<PlayerId>, id: PlayerId): int
    requires |winners| > 0 && |order| == |winners|
  {
    (if id in winners then amount / |winners| else 0) + (if id in order[..amount % |winners|] then 1 else 0)
  }

  function WinnersOf(pot: Pot, score: PlayerId -> HandScore): seq<PlayerId> {
    if |pot.eligible| == 1 then pot.eligible else BestOf(pot.eligible, score)
  }

  function PotPays(pot: Pot, score: PlayerId -> HandScore, key: PlayerId -> int, id: PlayerId): int {
    var winners := WinnersOf(pot, score);
    if |winners| == 0 then 0 else Award(pot.amount, winners, SortBy(winners, key), id)
  }

  function PaysFrom(score: PlayerId -> HandScore, key: PlayerId -> int, id: PlayerId): Pot -> int {
    (pot: Pot) => PotPays(pot, score, key, id)
  }

  function PotsPay(pots: seq<Pot>, score: PlayerId -> HandScore, key: PlayerId -> int, id: PlayerId): int {
    Sum(pots, PaysFrom(score, key, id))
  }

  function PotFault(s: State, pots: seq<Pot>): Option<SettleError> {
    if |pots| == 0 then None
    else if |pots[0].eligible| == 0 then Some(NoEligiblePlayer)
    else
      var bad := if |pots[0].eligible| == 1 then None else FirstUnshowable(s, pots[0].eligible);
      if bad.Some? then Some(CannotEvaluate(bad.value)) else PotFault(s, pots[1..])
  }

  function HandOf(p: Player): int { p.handCommitted }

  /** What a player is paid once the board is complete. */
  function Payout(s: State, id: PlayerId): int
    requires forall i | 0 <= i < |s.players| :: s.players[i].seat >= 0
  {
    if Count(s.players, IsContender) == 1 then
      if id in IdsOf(s.players, IsContender) then Sum(s.players, HandOf) else 0
    else
      RefundOf(s.players, id)
      + PotsPay(PotsOf(s.players), ShowdownScore(s), ClockDistance(s.players, s.buttonSeat), id)
  }

  function Paid(p: Player, amount: int): Player {
    p.(stack := p.stack + amount, streetCommitted := 0, handCommitted := 0,
       status := if p.status == AllIn && p.stack + amount > 0 then Active else p.status)
  }

  /** The state the showdown is settled in: with more than one contender the board is run out first. */
  function ShowdownState(s: State): Result<State, SettleError> {
    if Count(s.players, IsContender) <= 1 then Ok(s)
    else
      match RunOut(s.board, s.deck)
      case Ok(cut) => Ok(s.(board := cut.board, deck := cut.deck))
      case Err(e) => Err(e)
  }

  function Settled(s: State): State
    requires forall i | 0 <= i < |s.players| :: s.players[i].seat >= 0
  {
    s.(version := s.version + 1, currentBet := 0, acted := [], raiseRights := [], lastActedBet := map[],
       players := seq(|s.players|, i requires 0 <= i < |s.players| =>
                        Paid(s.players[i], Payout(s, s.players[i].id))))
  }

  /** A sole contender is paid without looking at the pots; otherwise every pot must have a winner. */
  function SettleFault(t: State): Option<SettleError> {
    if Count(t.players, IsContender) == 1 then None else PotFault(t, PotsOf(t.players))
  }

  function Settle(s: State): Result<State, SettleError>
    requires forall i | 0 <= i < |s.players| :: s.players[i].seat >= 0
  {
    if s.phase != Complete then Err(HandNotComplete)
    else
      match ShowdownState(s)
      case Err(e) => Err(e)
      case Ok(t) =>
        if SettleFault(t).Some? then Err(SettleFault(t).value) else Ok(Settled(t))
  }
}

/** What holds in every betting state reachable from a dealt hand, stated seat by seat. */
module BettingInvariant {
  import opened Reducer
  import opened Sealing
  import opened Sequences
  import opened Table
  import opened Wrappers

  /** Clockwise distance from seat a, the seat itself being the nearest. */
  function Dist(n: nat, a: nat, i: nat): nat
    requires a < n && i < n
  {
    if i >= a then i - a else i - a + n
  }

  /** Clockwise distance from seat a, the seat itself being the farthest. */
  function Gap(n: nat, a: nat, i: nat): nat
    requires a < n && i < n
  {
    if i > a then i - a else i - a + n
  }

  predicate ChipsOk(ps: seq<Player>) {
    forall i | 0 <= i < |ps| :: PlayerOk(ps[i])
  }

  predicate PlayerOk(p: Player) {
    && 0 <= p.stack
    && 0 <= p.streetCommitted <= p.handCommitted
    && (p.status == Active ==> p.stack > 0)
    && (p.status == AllIn ==> p.stack == 0)
  }

  /** The current bet is the largest commitment of the street. */
  predicate BetIsMax(ps: seq<Player>, bet: int) {
    && (forall i | 0 <= i < |ps| :: ps[i].streetCommitted <= bet)
    && (exists i :: 0 <= i < |ps| && ps[i].streetCommitted == bet)
  }

  /** Chips committed on earlier streets. */
  function Carry(p: Player): int { p.handCommitted - p.streetCommitted }

  /** Everybody still active carries the same amount into the street, and nobody carries more. */
  predicate CarryLevel(ps: seq<Player>, carry: int) {
    && (forall i | 0 <= i < |ps| :: Carry(ps[i]) <= carry)
    && (forall i | 0 <= i < |ps| :: ps[i].status == Active ==> Carry(ps[i]) == carry)
  }

  /** Some player who has not folded holds the largest commitment. */
  predicate TopContender(ps: seq<Player>, bet: int, carry: int) {
    exists i :: 0 <= i < |ps| && Tops(ps[i], bet, carry)
  }

  predicate Tops(p: Player, bet: int, carry: int) {
    p.status != Folded && p.streetCommitted == bet && Carry(p) == carry
  }

  /** Some player who has not folded has committed at least as much to the hand as anyone. */
  predicate Covered(ps: seq<Player>) {
    exists i :: 0 <= i < |ps| && ps[i].status != Folded
                && forall j | 0 <= j < |ps| :: ps[j].handCommitted <= ps[i].handCommitted
  }

  /** The cached raise rights are exactly what the wagers faced since the street began imply. */
  predicate RightsMatch(s: State) {
    forall i | 0 <= i < |s.players| :: RightsMatchAt(s, s.players[i])
  }

  predicate RightsMatchAt(s: State, p: Player) {
    p.id in s.raiseRights <==>
    p.status == Active && (p.id !in s.lastActedBet || s.currentBet - s.lastActedBet[p.id] >= s.minimumRaise)
  }

  predicate LastMatches(s: State) {
    forall i | 0 <= i < |s.players| :: LastMatchesAt(s, s.players[i])
  }

  predicate LastMatchesAt(s: State, p: Player) {
    p.status == Active && p.id in s.lastActedBet ==> s.lastActedBet[p.id] == p.streetCommitted
  }

  predicate MetadataKnown(s: State) {
    && (forall id | id in s.acted :: IsPlayer(s.players, id))
    && (forall id | id in s.raiseRights :: IsPlayer(s.players, id))
    && (forall id | id in s.lastActedBet :: IsPlayer(s.players, id) && 0 <= s.lastActedBet[id])
  }

  predicate TableOk(s: State) {
    && Seated(s.players)
    && ChipsOk(s.players)
    && BetIsMax(s.players, s.currentBet)
    && 0 <= s.buttonSeat < |s.players|
    && 0 < s.smallBlind < s.bigBlind
    && 0 < s.minimumRaise
    && 0 <= s.version
    && MetadataKnown(s)
  }

  /** Clockwise from the actor, the players who still owe a decision come before those who do not. */
  predicate TurnOrder(s: State, a: nat)
    requires a < |s.players|
  {
    forall i, j | 0 <= i < |s.players| && 0 <= j < |s.players| ::
      (IsActive(s.players[i]) && IsActive(s.players[j]) && !Done(s, j)
       && Dist(|s.players|, a, i) <= Dist(|s.players|, a, j)) ==> !Done(s, i)
  }

  /** A player who tops the betting without having acted (a blind) is the last who owes a decision. */
  predicate UnactedTopIsLast(s: State, a: nat)
    requires a < |s.players|
  {
    forall p, q | 0 <= p < |s.players| && 0 <= q < |s.players| ::
      UnactedTop(s, s.players[p]) && IsActive(s.players[q]) && !Done(s, q) ==>
        Dist(|s.players|, a, q) <= Dist(|s.players|, a, p)
  }

  predicate UnactedTop(s: State, p: Player) {
    IsActive(p) && p.id !in s.acted && p.streetCommitted == s.currentBet && s.currentBet > 0
  }

  predicate AnotherActive(ps: seq<Player>, a: nat) {
    exists i :: 0 <= i < |ps| && i != a && IsActive(ps[i])
  }

  /** A live state in which it is seat a's turn. */
  predicate LiveAt(s: State, a: nat) {
    && a < |s.players|
    && s.players[a].id == s.actorId
    && IsActive(s.players[a])
    && !Done(s, a)
    && CarryLevel(s.players, Carry(s.players[a]))
    && TopContender(s.players, s.currentBet, Carry(s.players[a]))
    && (s.players[a].streetCommitted == s.currentBet ==> AnotherActive(s.players, a))
    && TurnOrder(s, a)
    && UnactedTopIsLast(s, a)
    && RightsMatch(s)
    && LastMatches(s)
  }

  function ActorSeat(s: State): nat { SeatOf(s.players, s.actorId) }

  /** The invariant of a dealt hand: full betting discipline while live, and a payable pot when complete. */
  predicate BettingFacts(s: State) {
    && TableOk(s)
    && IsPlayer(s.players, s.actorId)
    && (s.phase != Complete ==> LiveAt(s, ActorSeat(s)))
    && (s.phase == Complete ==> Covered(s.players))
  }

  ghost predicate Betting(s: State) {
    forall k {:trigger Open(BettingSeal, k)} :: Open(BettingSeal, k) ==> BettingFacts(s)
  }

  lemma Unfold(s: State)
    requires Betting(s)
    ensures BettingFacts(s)
  {
    assert Open(BettingSeal, 0);
  }

  /** What it takes to give the state a command. */
  predicate Playable(s: State) {
    && 2 <= |s.players| <= 9
    && s.buttonSeat >= 0
    && forall i | 0 <= i < |s.players| :: s.players[i].seat >= 0
  }

  lemma BettingPlayable(s: State)
    requires Betting(s)
    ensures Playable(s)
  {
    Unfold(s);
  }

  // ---- The state between a player's decision and the passing of the turn ----

  predicate MidOrder(s: State, a: nat)
    requires a < |s.players|
  {
    forall i, j | 0 <= i < |s.players| && 0 <= j < |s.players| ::
      (IsActive(s.players[i]) && IsActive(s.players[j]) && !Done(s, j)
       && Gap(|s.players|, a, i) <= Gap(|s.players|, a, j)) ==> !Done(s, i)
  }

  predicate MidUnacted(s: State, a: nat)
    requires a < |s.players|
  {
    forall p, q | 0 <= p < |s.players| && 0 <= q < |s.players| ::
      UnactedTop(s, s.players[p]) && IsActive(s.players[q]) && !Done(s, q) ==>
        Gap(|s.players|, a, q) <= Gap(|s.players|, a, p)
  }

  predicate Mid(s: State, a: nat, carry: int) {
    && TableOk(s)
    && a < |s.players|
    && CarryLevel(s.players, carry)
    && TopContender(s.players, s.currentBet, carry)
    && MidOrder(s, a)
    && MidUnacted(s, a)
    && RightsMatch(s)
    && LastMatches(s)
  }

  lemma SeatOfUnique(ps: seq<Player>, i: nat)
    requires UniqueIds(ps) && i < |ps|
    ensures SeatOf(ps, ps[i].id) == i
  {
  }

  lemma LiveActor(s: State, a: nat)
    requires TableOk(s) && LiveAt(s, a)
    ensures ActorSeat(s) == a && IsPlayer(s.players, s.actorId)
  {
    SeatOfUnique(s.players, a);
  }

  // ---- The next player to act ----

  /** The seat reached after a number of clockwise steps. */
  lemma StepSeat(n: nat, a: nat, offset: nat)
    requires a < n && 1 <= offset <= n
    ensures (a + offset) % n == (if a + offset < n then a + offset else a + offset - n)
    ensures 0 <= (a + offset) % n < n
    ensures Gap(n, a, (a + offset) % n) == offset
  {
    if a + offset < n {
      SmallMod(a + offset, n);
    } else {
      WrapMod(a + offset, n);
    }
  }

  lemma SmallMod(x: nat, n: nat)
    requires x < n
    ensures x % n == x
  {
  }

  lemma WrapMod(x: nat, n: nat)
    requires 0 < n <= x < 2 * n
    ensures x % n == x - n
  {
    assert x / n == 1;
  }

  lemma GapInjective(n: nat, a: nat, i: nat, j: nat)
    requires a < n && i < n && j < n && Gap(n, a, i) == Gap(n, a, j)
    ensures i == j
  {
  }

  /** The found seat satisfies the condition, and no seat that does is nearer clockwise. */
  lemma {:induction false} NextSeatNearest(ps: seq<Player>, can: Player -> bool, a: nat, offset: nat)
    requires a < |ps| && 1 <= offset <= |ps| + 1
    requires forall j | 0 <= j < |ps| && can(ps[j]) :: Gap(|ps|, a, j) >= offset
    ensures var next := NextSeatFrom(ps, can, a, offset);
            && (next.None? ==> forall j | 0 <= j < |ps| :: !can(ps[j]))
            && (next.Some? ==>
                  forall j | 0 <= j < |ps| && can(ps[j]) :: Gap(|ps|, a, next.value) <= Gap(|ps|, a, j))
    decreases |ps| + 1 - offset
  {
    if offset <= |ps| {
      var c := (a + offset) % |ps|;
      StepSeat(|ps|, a, offset);
      if !can(ps[c]) {
        forall j | 0 <= j < |ps| && can(ps[j]) ensures Gap(|ps|, a, j) >= offset + 1 {
          if Gap(|ps|, a, j) == offset {
            GapInjective(|ps|, a, j, c);
          }
        }
        NextSeatNearest(ps, can, a, offset + 1);
      }
    }
  }

  lemma NextActiveNearest(ps: seq<Player>, a: nat)
    requires ChipsOk(ps) && a < |ps|
    ensures var next := NextActive(ps, a);
            && (next.None? ==> forall j | 0 <= j < |ps| :: !IsActive(ps[j]))
            && (next.Some? ==> IsActive(ps[next.value])
                               && forall j | 0 <= j < |ps| && IsActive(ps[j]) ::
                                 Gap(|ps|, a, next.value) <= Gap(|ps|, a, j))
  {
    NextSeatNearest(ps, CanAct, a, 1);
    forall j | 0 <= j < |ps| ensures IsActive(ps[j]) == CanAct(ps[j]) {
      assert PlayerOk(ps[j]);
    }
  }

  // ---- Passing the turn ----

  lemma SomebodyOwes(s: State)
    requires !HandOver(s) && !StreetClosed(s)
    ensures exists j :: 0 <= j < |s.players| && IsActive(s.players[j]) && !Done(s, j)
  {
  }

  lemma TwoActive(s: State, a: nat)
    requires a < |s.players| && IsActive(s.players[a])
    requires !HandOver(s)
    requires s.players[a].streetCommitted == s.currentBet
    ensures AnotherActive(s.players, a)
  {
    CountTwo(s.players, IsActive);
    if Count(s.players, IsActive) >= 2 {
      var i, j :| 0 <= i < j < |s.players| && IsActive(s.players[i]) && IsActive(s.players[j]);
      assert (if i == a then j else i) != a;
    } else {
      var j :| 0 <= j < |s.players| && s.players[j].status == Active
               && s.players[j].streetCommitted != s.currentBet;
      assert j != a;
      assert IsActive(s.players[j]);
    }
  }

  /** Measured from the next actor, distances keep the order they had from the seat that just acted. */
  lemma OrderShifts(n: nat, a: nat, c: nat, i: nat, j: nat)
    requires a < n && c < n && i < n && j < n
    requires Gap(n, a, c) <= Gap(n, a, i) && Gap(n, a, c) <= Gap(n, a, j)
    ensures Dist(n, c, i) <= Dist(n, c, j) <==> Gap(n, a, i) <= Gap(n, a, j)
  {
  }

  lemma PassKeepsOrder(s: State, t: State, a: nat, c: nat)
    requires a < |s.players| && c < |s.players|
    requires t.players == s.players && t.acted == s.acted && t.currentBet == s.currentBet
    requires forall j | 0 <= j < |s.players| && IsActive(s.players[j]) ::
               Gap(|s.players|, a, c) <= Gap(|s.players|, a, j)
    requires MidOrder(s, a) && MidUnacted(s, a)
    ensures TurnOrder(t, c) && UnactedTopIsLast(t, c)
  {
    var n := |s.players|;
    forall i, j | 0 <= i < n && 0 <= j < n && IsActive(t.players[i]) && IsActive(t.players[j])
      ensures Dist(n, c, i) <= Dist(n, c, j) <==> Gap(n, a, i) <= Gap(n, a, j)
    {
      OrderShifts(n, a, c, i, j);
    }
    assert forall i | 0 <= i < n :: Done(t, i) == Done(s, i);
    assert forall p | 0 <= p < n :: UnactedTop(t, t.players[p]) == UnactedTop(s, s.players[p]);
  }

  lemma NextOwes(s: State, a: nat)
    requires a < |s.players| && ChipsOk(s.players) && MidOrder(s, a)
    requires !HandOver(s) && !StreetClosed(s)
    ensures var next := NextActive(s.players, a);
            && next.Some? && IsActive(s.players[next.value]) && !Done(s, next.value)
            && forall j | 0 <= j < |s.players| && IsActive(s.players[j]) ::
              Gap(|s.players|, a, next.value) <= Gap(|s.players|, a, j)
  {
    SomebodyOwes(s);
    var j :| 0 <= j < |s.players| && IsActive(s.players[j]) && !Done(s, j);
    NextActiveNearest(s.players, a);
    assert Gap(|s.players|, a, NextActive(s.players, a).value) <= Gap(|s.players|, a, j);
  }

  /** A change of actor alone leaves everything else about the table as it was. */
  lemma ActorChange(s: State, t: State)
    requires TableOk(s) && RightsMatch(s) && LastMatches(s)
    requires t == s.(version := t.version, actorId := t.actorId) && t.version == s.version + 1
    ensures TableOk(t) && RightsMatch(t) && LastMatches(t)
  {
    assert RightsMatch(t) by {
      forall i | 0 <= i < |t.players| ensures RightsMatchAt(t, t.players[i]) {
        assert RightsMatchAt(s, s.players[i]);
      }
    }
    assert LastMatches(t) by {
      forall i | 0 <= i < |t.players| ensures LastMatchesAt(t, t.players[i]) {
        assert LastMatchesAt(s, s.players[i]);
      }
    }
  }

  /** When nobody has won and the street is open, the turn goes to a player who still owes a decision. */
  lemma PassIsLive(s: State, a: nat, carry: int)
    requires Mid(s, a, carry)
    requires !HandOver(s) && !StreetClosed(s)
    ensures var t := PassTurn(s, a); TableOk(t) && LiveAt(t, ActorSeat(t)) && IsPlayer(t.players, t.actorId)
  {
    NextOwes(s, a);
    var c := NextActive(s.players, a).value;
    var t := PassTurn(s, a);
    ActorChange(s, t);
    PassKeepsOrder(s, t, a, c);
    if s.players[c].streetCommitted == s.currentBet {
      TwoActive(s, c);
    }
    assert !Done(t, c);
    assert LiveAt(t, c);
    LiveActor(t, c);
  }

  // ---- Ending the hand ----

  lemma TopCovers(ps: seq<Player>, bet: int, carry: int)
    requires BetIsMax(ps, bet) && CarryLevel(ps, carry) && TopContender(ps, bet, carry)
    ensures Covered(ps)
  {
    var i :| 0 <= i < |ps| && Tops(ps[i], bet, carry);
    forall j | 0 <= j < |ps| ensures ps[j].handCommitted <= ps[i].handCommitted {
      assert Carry(ps[j]) <= carry;
    }
  }

  lemma CompletedIsCovered(s: State, a: nat, carry: int)
    requires Mid(s, a, carry) && IsPlayer(s.players, s.actorId)
    ensures Betting(Completed(s))
  {
    TopCovers(s.players, s.currentBet, carry);
  }

  // ---- Closing a street ----

  lemma ResetChips(s: State, carry: int)
    requires TableOk(s) && CarryLevel(s.players, carry)
    requires exists i :: 0 <= i < |s.players| && IsActive(s.players[i])
    requires forall i | 0 <= i < |s.players| :: IsActive(s.players[i]) ==> s.players[i].streetCommitted == s.currentBet
    ensures var ps := ResetStreet(s.players);
            && Seated(ps) && ChipsOk(ps) && BetIsMax(ps, 0)
            && CarryLevel(ps, carry + s.currentBet) && TopContender(ps, 0, carry + s.currentBet)
  {
    var ps := ResetStreet(s.players);
    forall i | 0 <= i < |ps|
      ensures PlayerOk(ps[i]) && Carry(ps[i]) <= carry + s.currentBet
      ensures IsActive(ps[i]) ==> Carry(ps[i]) == carry + s.currentBet
    {
      assert PlayerOk(s.players[i]);
      assert Carry(s.players[i]) <= carry;
    }
    var k :| 0 <= k < |s.players| && IsActive(s.players[k]);
    assert Tops(ps[k], 0, carry + s.currentBet);
    assert ps[0].streetCommitted == 0;
  }

  lemma NextStreetTable(s: State, carry: int)
    requires TableOk(s) && CarryLevel(s.players, carry) && StreetClosed(s)
    ensures var t := NextStreet(s);
            && TableOk(t) && CarryLevel(t.players, carry + s.currentBet)
            && TopContender(t.players, 0, carry + s.currentBet)
  {
    CountTwo(s.players, IsActive);
    forall i | 0 <= i < |s.players| && IsActive(s.players[i])
      ensures s.players[i].streetCommitted == s.currentBet
    {
      assert Done(s, i);
    }
    ResetChips(s, carry);
    var t := NextStreet(s);
    forall id | id in t.raiseRights ensures IsPlayer(t.players, id) {
    }
  }

  lemma NextStreetRights(s: State)
    requires Seated(s.players) && 0 <= s.buttonSeat && 0 < s.bigBlind
    ensures RightsMatch(NextStreet(s)) && LastMatches(NextStreet(s))
  {
    var t := NextStreet(s);
    forall i | 0 <= i < |t.players| ensures RightsMatchAt(t, t.players[i]) && LastMatchesAt(t, t.players[i]) {
      IdsOfAt(t.players, IsActive, i);
    }
  }

  predicate CanOpen(ps: seq<Player>, id: PlayerId, c: nat) {
    c < |ps| && IsActive(ps[c]) && ps[c].id == id && AnotherActive(ps, c)
  }

  lemma NextStreetActor(s: State)
    requires TableOk(s) && StreetClosed(s)
    ensures exists c: nat :: CanOpen(NextStreet(s).players, NextStreet(s).actorId, c)
  {
    var ps := ResetStreet(s.players);
    CountTwo(s.players, IsActive);
    var i, j :| 0 <= i < j < |s.players| && IsActive(s.players[i]) && IsActive(s.players[j]);
    assert IsActive(ps[i]) && IsActive(ps[j]);
    ResetChipsOk(s.players);
    NextActiveNearest(ps, s.buttonSeat);
    var c := NextActive(ps, s.buttonSeat).value;
    assert (if i == c then j else i) != c;
    assert CanOpen(ps, ps[c].id, c);
    assert CanOpen(NextStreet(s).players, NextStreet(s).actorId, c);
  }

  lemma ResetChipsOk(ps: seq<Player>)
    requires ChipsOk(ps)
    ensures ChipsOk(ResetStreet(ps))
  {
    forall i | 0 <= i < |ps| ensures PlayerOk(ResetStreet(ps)[i]) {
      assert PlayerOk(ps[i]);
    }
  }

  /** Nobody has acted on a fresh street, so the first active player left of the button owes a decision. */
  lemma NextStreetIsBetting(s: State, carry: int)
    requires TableOk(s) && CarryLevel(s.players, carry) && StreetClosed(s)
    ensures Betting(NextStreet(s))
  {
    var t := NextStreet(s);
    NextStreetTable(s, carry);
    NextStreetRights(s);
    NextStreetActor(s);
    FreshStreet(t, carry + s.currentBet);
  }

  /** A street on which nobody has acted and nothing is bet is in order, whoever is first to act. */
  lemma FreshStreet(t: State, carry: int)
    requires TableOk(t) && t.acted == [] && t.currentBet == 0
    requires CarryLevel(t.players, carry) && TopContender(t.players, 0, carry)
    requires RightsMatch(t) && LastMatches(t)
    requires exists c: nat :: CanOpen(t.players, t.actorId, c)
    ensures Betting(t)
  {
    TopCovers(t.players, 0, carry);
    var c: nat :| CanOpen(t.players, t.actorId, c);
    assert forall k | 0 <= k < |t.players| :: !Done(t, k);
    assert Carry(t.players[c]) == carry;
    assert LiveAt(t, c);
    LiveActor(t, c);
  }

  /** Whatever the turn logic decides, the invariant of a dealt hand holds again. */
  lemma FinishIsBetting(s: State, a: nat, carry: int, events: seq<Event>)
    requires Mid(s, a, carry) && IsPlayer(s.players, s.actorId)
    ensures Betting(FinishOrPass(s, a, events).state)
  {
    if HandOver(s) {
      CompletedIsCovered(s, a, carry);
    } else if StreetClosed(s) {
      NextStreetIsBetting(s, carry);
    } else {
      PassIsLive(s, a, carry);
      var t := PassTurn(s, a);
      if t.phase == Complete {
        TopCovers(s.players, s.currentBet, carry);
      }
    }
  }
}

/** What the executable state check accepts: exactly the states described here. */
module StateChecks {
  import opened BettingInvariant
  import opened Board
  import opened Cards
  import opened DurableLog
  import opened Invariants
  import opened Lifecycle
  import opened NewHands
  import opened Recovery
  import opened Reducer
  import opened Sequences
  import opened Table
  import opened Wrappers

  predicate TableConsistent(s: State) {
    && 2 <= |s.players| <= 9
    && (forall i, j | 0 <= i < j < |s.players| ::
          s.players[i].id != s.players[j].id && s.players[i].seat != s.players[j].seat)
    && (forall i | 0 <= i < |s.players| :: s.players[i].seat >= 0)
    && (exists i :: 0 <= i < |s.players| && s.players[i].seat == s.buttonSeat)
    && 0 < s.smallBlind < s.bigBlind && 0 < s.minimumRaise && 0 <= s.version
    && (forall i | 0 <= i < |s.players| :: PlayerConsistent(s.players[i]))
  }

  predicate PlayerConsistent(p: Player) {
    && 0 <= p.stack && 0 <= p.streetCommitted <= p.handCommitted
    && (p.status == Active ==> p.stack > 0)
    && (p.status == AllIn ==> p.stack == 0)
  }

  ghost predicate BettingConsistent(s: State) {
    && (exists i :: 0 <= i < |s.players| && MayBeActor(s, s.players[i]))
    && (forall i | 0 <= i < |s.players| :: s.players[i].streetCommitted <= s.currentBet)
    && (forall id | id in s.acted || id in s.raiseRights || id in s.lastActedBet :: IsPlayer(s.players, id))
    && (forall id | id in s.lastActedBet :: s.lastActedBet[id] >= 0)
  }

  /** The named actor; while the hand lasts, one who can act. */
  predicate MayBeActor(s: State, p: Player) {
    p.id == s.actorId && (s.phase != Complete ==> p.status == Active && p.stack > 0)
  }

  predicate CardsConsistent(s: State) {
    && |s.board| in (match s.phase
                     case Preflop => {0}
                     case Flop => {3}
                     case Turn => {4}
                     case River => {5}
                     case Complete => {0, 3, 4, 5})
    && (forall id | id in s.holeCards :: IsPlayer(s.players, id) && |s.holeCards[id]| == 2)
    && (s.deck != [] || s.board != [] || s.holeCards != map[] ==>
          forall i | 0 <= i < |s.players| && (s.players[i].stack > 0 || s.players[i].handCommitted > 0
                                              || s.players[i].status != Folded) ::
            s.players[i].id in s.holeCards)
    && Distinct(AllCards(s))
  }

  lemma {:induction false} PlayersChecked(ps: seq<Player>)
    ensures FirstPlayerViolation(ps).None? <==> forall i | 0 <= i < |ps| :: PlayerConsistent(ps[i])
  {
    if |ps| > 0 {
      PlayersChecked(ps[1..]);
      assert forall i | 1 <= i < |ps| :: ps[i] == ps[1..][i - 1];
      if forall i | 0 <= i < |ps| :: PlayerConsistent(ps[i]) {
        assert forall i | 0 <= i < |ps| - 1 :: ps[1..][i] == ps[i + 1];
      }
    }
  }

  lemma TableChecked(s: State)
    ensures TableViolation(s).None? <==> TableConsistent(s) && IsPlayer(s.players, s.actorId)
  {
    PlayersChecked(s.players);
  }

  lemma BetChecked(ps: seq<Player>, bet: int)
    requires |ps| > 0 && forall i | 0 <= i < |ps| :: PlayerConsistent(ps[i])
    ensures 0 <= bet && MaxStreet(ps) <= bet <==> forall i | 0 <= i < |ps| :: ps[i].streetCommitted <= bet
  {
    MaxStreetIsMax(ps);
    var i :| 0 <= i < |ps| && ps[i].streetCommitted == MaxStreet(ps);
    assert PlayerConsistent(ps[i]);
  }

  lemma ActorChecked(s: State)
    requires UniqueIds(s.players) && IsPlayer(s.players, s.actorId)
    ensures var a := SeatOf(s.players, s.actorId);
            a < |s.players|
            && (MayBeActor(s, s.players[a]) <==>
                exists i :: 0 <= i < |s.players| && MayBeActor(s, s.players[i]))
  {
    var a :| 0 <= a < |s.players| && s.players[a].id == s.actorId;
    SeatOfUnique(s.players, a);
    forall i | 0 <= i < |s.players| && MayBeActor(s, s.players[i]) ensures i == a {
      SeatOfUnique(s.players, i);
    }
  }

  lemma BettingChecked(s: State)
    requires TableConsistent(s) && IsPlayer(s.players, s.actorId)
    ensures BettingViolation(s).None? <==> BettingConsistent(s)
  {
    BetChecked(s.players, s.currentBet);
    ActorChecked(s);
    assert PlayerConsistent(s.players[SeatOf(s.players, s.actorId)]);
  }

  lemma HandsListed(s: State)
    ensures |s.holeCards| > 0 <==> s.holeCards != map[]
  {
    if |s.holeCards| == 0 {
      assert s.holeCards.Keys == {};
      assert s.holeCards == map[];
    }
  }

  lemma CardsChecked(s: State)
    ensures CardViolation(s).None? <==> CardsConsistent(s)
  {
    HandsListed(s);
  }

  /** The check passes exactly the consistent states. */
  lemma CheckMeaning(s: State)
    ensures AssertInvariants(s).None? <==> TableConsistent(s) && BettingConsistent(s) && CardsConsistent(s)
  {
    TableChecked(s);
    CardsChecked(s);
    if TableConsistent(s) && IsPlayer(s.players, s.actorId) {
      BettingChecked(s);
    } else if TableConsistent(s) {
      assert forall i | 0 <= i < |s.players| :: s.players[i].id != s.actorId;
    }
  }

  // ---- What recovery accepts ----

  /** Whatever the tables hold, a recovery is ready only with a consistent state of this room and hand, under the
      version it is stored with, in progress with a deadline or complete without one, and confirmed by the hand's
      events. */
  lemma ReadyMeaning(db: Db, room: RoomId)
    ensures Verdict(db, room).Ready? <==>
            && LatestOfRoom(db, room).Some?
            && var s := LatestOfRoom(db, room).value;
            && var i := HandIndex(db.hands, s.handId);
            && TableConsistent(s.state) && BettingConsistent(s.state) && CardsConsistent(s.state)
            && s.state.tableId == room && s.state.handId == s.handId && s.state.version == s.version
            && i < |db.hands| && db.hands[i].roomId == room
            && (if s.state.phase == Complete then db.hands[i].deadline.None? && db.hands[i].status == Finished
                else db.hands[i].deadline.Some? && db.hands[i].status == InProgress)
            && HistoryOk(s, EventsOf(db, s.handId))
    ensures Verdict(db, room).Ready? ==>
              Verdict(db, room).runtime.state == LatestOfRoom(db, room).value.state
    ensures Verdict(db, room) == NoHand <==> LatestOfRoom(db, room).None?
  {
    if LatestOfRoom(db, room).Some? {
      CheckMeaning(LatestOfRoom(db, room).value.state);
    }
  }
}

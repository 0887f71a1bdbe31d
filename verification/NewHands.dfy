/** A freshly dealt hand is in betting order, whoever holds the button and however short the stacks. */
module NewHands {
  import opened BettingInvariant
  import opened Cards
  import opened Dealing
  import opened Fairness
  import opened Lifecycle
  import opened Reducer
  import opened Sequences
  import opened Table
  import opened Wrappers

  /** bb is the funded seat after sb, and c the one after bb. */
  predicate Opens(ps: seq<Player>, sb: nat, bb: nat, c: nat) {
    && sb < |ps| && bb < |ps| && c < |ps| && sb != bb
    && IsFunded(ps[sb]) && IsFunded(ps[bb]) && IsFunded(ps[c])
    && (forall j | 0 <= j < |ps| && IsFunded(ps[j]) :: Gap(|ps|, sb, bb) <= Gap(|ps|, sb, j))
    && (forall j | 0 <= j < |ps| && IsFunded(ps[j]) :: Gap(|ps|, bb, c) <= Gap(|ps|, bb, j))
  }

  predicate StacksOk(ps: seq<Player>) {
    forall i | 0 <= i < |ps| :: ps[i].stack >= 0
  }

  lemma PostOk(p: Player, forced: int)
    requires p.stack >= 0 && forced >= 0
    ensures var q := Post(p, forced);
            && PlayerOk(q) && Carry(q) == 0 && q.streetCommitted <= forced
            && q.id == p.id && q.seat == p.seat
            && (q.status == Folded <==> !IsFunded(p))
            && (q.status == Active ==> q.streetCommitted == forced)
            && (IsFunded(p) && forced > 0 ==> q.streetCommitted > 0)
            && (IsFunded(p) && forced == 0 ==> q.status == Active)
            && q.stack + q.handCommitted == p.stack
  {
  }

  lemma {:induction false} MaxStreetIsMax(ps: seq<Player>)
    requires |ps| > 0
    ensures BetIsMax(ps, MaxStreet(ps))
  {
    var n := |ps| - 1;
    if n > 0 {
      MaxStreetIsMax(ps[..n]);
      assert forall i | 0 <= i < n :: ps[..n][i] == ps[i];
      var i :| 0 <= i < n && ps[..n][i].streetCommitted == MaxStreet(ps[..n]);
      assert ps[i].streetCommitted == MaxStreet(ps[..n]);
      assert ps[n].streetCommitted <= MaxStreet(ps);
    }
  }

  lemma PostedTable(ps: seq<Player>, sb: nat, bb: nat, small: int, big: int)
    requires Seated(ps) && StacksOk(ps) && 0 < small < big
    ensures var posted := PostAll(ps, sb, bb, small, big);
            Seated(posted) && ChipsOk(posted) && CarryLevel(posted, 0)
  {
    var posted := PostAll(ps, sb, bb, small, big);
    forall i | 0 <= i < |ps|
      ensures PlayerOk(posted[i]) && Carry(posted[i]) == 0 && posted[i].seat == i && posted[i].id == ps[i].id
    {
      PostOk(ps[i], Forced(i, sb, bb, small, big));
    }
  }

  /** Somebody posted, so whoever posted most has not folded. */
  lemma PostedTop(ps: seq<Player>, sb: nat, bb: nat, small: int, big: int)
    requires |ps| > 0 && StacksOk(ps) && 0 < small < big
    requires bb < |ps| && IsFunded(ps[bb])
    ensures var posted := PostAll(ps, sb, bb, small, big);
            BetIsMax(posted, MaxStreet(posted)) && MaxStreet(posted) > 0
            && TopContender(posted, MaxStreet(posted), 0)
  {
    var posted := PostAll(ps, sb, bb, small, big);
    MaxStreetIsMax(posted);
    PostOk(ps[bb], Forced(bb, sb, bb, small, big));
    assert posted[bb].streetCommitted > 0;
    var i :| 0 <= i < |posted| && posted[i].streetCommitted == MaxStreet(posted);
    PostOk(ps[i], Forced(i, sb, bb, small, big));
    assert Tops(posted[i], MaxStreet(posted), 0);
  }

  /** An active big blind is not topped by anyone. */
  lemma BigBlindTops(ps: seq<Player>, sb: nat, bb: nat, small: int, big: int)
    requires |ps| > 0 && StacksOk(ps) && 0 < small < big && bb < |ps| && sb != bb
    requires IsActive(PostAll(ps, sb, bb, small, big)[bb])
    ensures var posted := PostAll(ps, sb, bb, small, big);
            MaxStreet(posted) == posted[bb].streetCommitted == big
  {
    var posted := PostAll(ps, sb, bb, small, big);
    MaxStreetIsMax(posted);
    PostOk(ps[bb], big);
    var i :| 0 <= i < |posted| && posted[i].streetCommitted == MaxStreet(posted);
    PostOk(ps[i], Forced(i, sb, bb, small, big));
  }

  lemma OnlyBetween(n: nat, sb: nat, bb: nat, q: nat)
    requires sb < n && bb < n && q < n && sb != bb && q != sb && q != bb
    requires Gap(n, sb, bb) <= Gap(n, sb, q)
    ensures Gap(n, bb, q) < Gap(n, bb, sb)
  {
  }

  /** If play is on, the seat after the big blind can act. */
  lemma OpenerIsActive(ps: seq<Player>, sb: nat, bb: nat, c: nat, small: int, big: int)
    requires StacksOk(ps) && 0 < small < big && Opens(ps, sb, bb, c)
    requires var posted := PostAll(ps, sb, bb, small, big); !DealtOut(posted, MaxStreet(posted))
    ensures IsActive(PostAll(ps, sb, bb, small, big)[c])
  {
    var posted := PostAll(ps, sb, bb, small, big);
    if !IsActive(posted[c]) {
      PostOk(ps[c], Forced(c, sb, bb, small, big));
      assert Gap(|ps|, bb, c) <= Gap(|ps|, bb, sb);
      assert c == sb;
      forall q: nat | q < |ps| && IsActive(posted[q]) ensures q == bb {
        PostOk(ps[q], Forced(q, sb, bb, small, big));
        if q != bb {
          OnlyBetween(|ps|, sb, bb, q);
        }
      }
      CountTwo(posted, IsActive);
      CountNone(posted, IsActive);
      assert IsActive(posted[bb]);
      BigBlindTops(ps, sb, bb, small, big);
      assert AllActiveMatched(posted, MaxStreet(posted));
      assert false;
    }
  }

  /** The blinds owe the last decisions: a blind that tops the betting is last of the active players. */
  lemma BlindIsLast(ps: seq<Player>, sb: nat, bb: nat, c: nat, small: int, big: int, p: nat, q: nat)
    requires StacksOk(ps) && 0 < small < big && Opens(ps, sb, bb, c) && p < |ps| && q < |ps|
    requires var posted := PostAll(ps, sb, bb, small, big);
             && IsActive(posted[p]) && IsActive(posted[q])
             && posted[p].streetCommitted == MaxStreet(posted) > 0
    ensures Dist(|ps|, c, q) <= Dist(|ps|, c, p)
  {
    var n, posted := |ps|, PostAll(ps, sb, bb, small, big);
    PostOk(ps[p], Forced(p, sb, bb, small, big));
    PostOk(ps[q], Forced(q, sb, bb, small, big));
    assert p == sb || p == bb;
    OrderShifts(n, bb, c, q, p);
    if p == sb {
      if q == bb {
        BigBlindTops(ps, sb, bb, small, big);
        assert false;
      } else if q != sb {
        OnlyBetween(n, sb, bb, q);
      }
    }
  }

  /** The betting fields right after dealing to the seated players ps. */
  predicate JustDealt(t: State, ps: seq<Player>, sb: nat, bb: nat, actor: nat) {
    && 0 < |ps| && actor < |ps|
    && t.players == PostAll(ps, sb, bb, t.smallBlind, t.bigBlind)
    && t.currentBet == MaxStreet(t.players)
    && t.minimumRaise == t.bigBlind
    && t.acted == [] && t.lastActedBet == map[] && t.raiseRights == IdsOf(t.players, IsActive)
    && t.actorId == t.players[actor].id
    && t.phase == if DealtOut(t.players, t.currentBet) then Complete else Preflop
  }

  lemma NewHandFields(s: State, handId: string, button: nat, sb: nat, bb: nat, actor: nat, deck: seq<Card>)
    requires button < |s.players| && actor < |s.players|
    requires 2 * |Clock(s.players, button)| <= |deck|
    ensures var t := NewHand(s, handId, button, sb, bb, actor, deck);
            && JustDealt(t, s.players, sb, bb, actor)
            && t.smallBlind == s.smallBlind && t.bigBlind == s.bigBlind && t.version == s.version
            && t.buttonSeat == button
  {
  }

  lemma JustDealtTable(t: State, ps: seq<Player>, sb: nat, bb: nat, actor: nat)
    requires JustDealt(t, ps, sb, bb, actor)
    requires Seated(ps) && StacksOk(ps) && 0 < t.smallBlind < t.bigBlind && t.version >= 0
    requires bb < |ps| && IsFunded(ps[bb]) && 0 <= t.buttonSeat < |ps|
    ensures TableOk(t) && RightsMatch(t) && LastMatches(t)
    ensures CarryLevel(t.players, 0) && TopContender(t.players, t.currentBet, 0) && t.currentBet > 0
  {
    PostedTable(ps, sb, bb, t.smallBlind, t.bigBlind);
    PostedTop(ps, sb, bb, t.smallBlind, t.bigBlind);
    FreshRights(t);
    FreshMetadata(t);
  }

  lemma FreshMetadata(t: State)
    requires t.raiseRights == IdsOf(t.players, IsActive) && t.acted == [] && t.lastActedBet == map[]
    ensures MetadataKnown(t)
  {
    forall id | id in t.raiseRights ensures IsPlayer(t.players, id) {
      var i :| 0 <= i < |t.players| && t.players[i].id == id && IsActive(t.players[i]);
    }
  }

  lemma FreshRights(t: State)
    requires UniqueIds(t.players) && t.raiseRights == IdsOf(t.players, IsActive) && t.lastActedBet == map[]
    ensures RightsMatch(t) && LastMatches(t)
  {
    forall i | 0 <= i < |t.players| ensures RightsMatchAt(t, t.players[i]) && LastMatchesAt(t, t.players[i]) {
      IdsOfAt(t.players, IsActive, i);
    }
  }

  lemma OpenerIsLive(t: State, c: nat)
    requires 0 < |t.players| && c < |t.players| && t.acted == []
    requires UniqueIds(t.players) && RightsMatch(t) && LastMatches(t)
    requires CarryLevel(t.players, 0) && TopContender(t.players, t.currentBet, 0)
    requires !DealtOut(t.players, t.currentBet) && IsActive(t.players[c]) && t.players[c].id == t.actorId
    requires UnactedTopIsLast(t, c)
    ensures LiveAt(t, c)
  {
    assert forall k | 0 <= k < |t.players| :: !Done(t, k);
    assert Carry(t.players[c]) == 0;
    if t.players[c].streetCommitted == t.currentBet {
      CountTwo(t.players, IsActive);
      CountNone(t.players, IsActive);
      if Count(t.players, IsActive) >= 2 {
        var i, j :| 0 <= i < j < |t.players| && IsActive(t.players[i]) && IsActive(t.players[j]);
        assert (if i == c then j else i) != c;
      } else {
        var j :| 0 <= j < |t.players| && t.players[j].status == Active
                 && t.players[j].streetCommitted != t.currentBet;
        assert IsActive(t.players[j]) && j != c;
      }
    }
  }

  /** Dealing in order around the blinds gives a state in betting order. */
  lemma JustDealtIsBetting(t: State, ps: seq<Player>, sb: nat, bb: nat, c: nat, actor: nat)
    requires JustDealt(t, ps, sb, bb, actor) && Opens(ps, sb, bb, c)
    requires Seated(ps) && StacksOk(ps) && 0 < t.smallBlind < t.bigBlind && t.version >= 0
    requires 0 <= t.buttonSeat < |ps|
    requires t.phase != Complete ==> actor == c
    ensures Betting(t)
  {
    JustDealtTable(t, ps, sb, bb, actor);
    TopCovers(t.players, t.currentBet, 0);
    if t.phase != Complete {
      OpenerIsActive(ps, sb, bb, c, t.smallBlind, t.bigBlind);
      forall p, q | 0 <= p < |t.players| && 0 <= q < |t.players|
                    && UnactedTop(t, t.players[p]) && IsActive(t.players[q])
        ensures Dist(|t.players|, c, q) <= Dist(|t.players|, c, p)
      {
        BlindIsLast(ps, sb, bb, c, t.smallBlind, t.bigBlind, p, q);
      }
      OpenerIsLive(t, c);
      LiveActor(t, c);
    }
    assert t.players[actor].id == t.actorId;
  }

  /** With at least a big blind in front of every funded seat, the deal leaves something to play for. */
  lemma EnoughChipsPlay(t: State, ps: seq<Player>, sb: nat, bb: nat, c: nat, actor: nat)
    requires JustDealt(t, ps, sb, bb, actor) && Opens(ps, sb, bb, c) && 0 < t.smallBlind < t.bigBlind
    requires StacksOk(ps) && forall i | 0 <= i < |ps| && IsFunded(ps[i]) :: ps[i].stack >= t.bigBlind
    ensures t.phase == Preflop
  {
    MaxStreetIsMax(t.players);
    assert t.players[bb].streetCommitted == t.bigBlind;
    assert IsActive(t.players[sb]) && t.players[sb].streetCommitted == t.smallBlind;
    CountNone(t.players, IsActive);
  }

  // ---- The first hand ----

  lemma AfterNearest(ps: seq<Player>, seat: nat)
    requires seat < |ps| && Count(ps, IsFunded) >= 1
    ensures forall j | 0 <= j < |ps| && IsFunded(ps[j]) :: Gap(|ps|, seat, After(ps, seat)) <= Gap(|ps|, seat, j)
  {
    FundedNext(ps, seat);
    NextSeatNearest(ps, IsFunded, seat, 1);
  }

  lemma FullTableNext(ps: seq<Player>, seat: nat)
    requires seat < |ps| && forall i | 0 <= i < |ps| :: IsFunded(ps[i])
    ensures Count(ps, IsFunded) == |ps| && After(ps, seat) == SeatAfter(seat, |ps|)
  {
    CountNoneOf(ps);
    assert IsFunded(ps[(seat + 1) % |ps|]);
  }

  lemma SeatAfterDiffers(seat: nat, n: nat)
    requires seat < n && 2 <= n
    ensures SeatAfter(seat, n) < n && SeatAfter(seat, n) != seat
    ensures n == 2 ==> SeatAfter(SeatAfter(seat, n), n) == seat
  {
    StepSeat(n, seat, 1);
    StepSeat(n, SeatAfter(seat, n), 1);
  }

  lemma FullTableOpens(ps: seq<Player>, sb: nat)
    requires 2 <= |ps| && sb < |ps| && forall i | 0 <= i < |ps| :: IsFunded(ps[i])
    ensures var bb := SeatAfter(sb, |ps|); bb < |ps| && Opens(ps, sb, bb, SeatAfter(bb, |ps|))
  {
    var bb := SeatAfter(sb, |ps|);
    SeatAfterDiffers(sb, |ps|);
    SeatAfterDiffers(bb, |ps|);
    FullTableNext(ps, sb);
    FullTableNext(ps, bb);
    AfterNearest(ps, sb);
    AfterNearest(ps, bb);
  }

  lemma StartBlindsOpen(ps: seq<Player>, button: nat)
    requires 2 <= |ps| && button < |ps| && forall i | 0 <= i < |ps| :: IsFunded(ps[i])
    ensures var (sb, bb) := StartBlinds(|ps|, button);
            && sb < |ps| && bb < |ps| && Opens(ps, sb, bb, SeatAfter(bb, |ps|))
            && (|ps| == 2 ==> SeatAfter(bb, |ps|) == button)
  {
    SeatAfterDiffers(button, |ps|);
    FullTableOpens(ps, StartBlinds(|ps|, button).0);
  }

  /** The first hand is dealt in betting order, from any seating and any stacks the options allow. */
  lemma FirstHandIsBetting(o: StartOptions)
    requires FirstHand(o).Ok?
    ensures Betting(FirstHand(o).value)
  {
    StartSeats(o);
    var seated := Seats(o.players);
    var (sb, bb) := StartBlinds(|seated|, o.buttonSeat);
    StartBlindsOpen(seated, o.buttonSeat);
    var c := SeatAfter(bb, |seated|);
    var actor := StartActor(PostAll(seated, sb, bb, o.smallBlind, o.bigBlind), o.buttonSeat);
    StartChips(o);
    FirstActor(o, sb, bb, c);
    NewHandFields(EmptyTable(o), o.handId, o.buttonSeat, sb, bb, actor, o.deck);
    JustDealtIsBetting(FirstHand(o).value, seated, sb, bb, c, actor);
  }

  lemma StartChips(o: StartOptions)
    requires StartFault(o).None?
    ensures Seated(Seats(o.players)) && StacksOk(Seats(o.players)) && 0 < o.smallBlind < o.bigBlind
  {
  }

  lemma FirstActor(o: StartOptions, sb: nat, bb: nat, c: nat)
    requires StartFault(o).None? && (sb, bb) == StartBlinds(|o.players|, o.buttonSeat)
    requires Opens(Seats(o.players), sb, bb, c) && c == SeatAfter(bb, |o.players|)
    requires |o.players| == 2 ==> c == o.buttonSeat
    ensures var posted := PostAll(Seats(o.players), sb, bb, o.smallBlind, o.bigBlind);
            !DealtOut(posted, MaxStreet(posted)) ==> StartActor(posted, o.buttonSeat) == c
  {
    var posted := PostAll(Seats(o.players), sb, bb, o.smallBlind, o.bigBlind);
    if !DealtOut(posted, MaxStreet(posted)) {
      StartChips(o);
      OpenerIsActive(Seats(o.players), sb, bb, c, o.smallBlind, o.bigBlind);
    }
  }

  // ---- The next hand ----

  lemma TwoFundedOnly(ps: seq<Player>, a: nat, b: nat, c: nat)
    requires a < |ps| && b < |ps| && c < |ps| && Count(ps, IsFunded) == 2
    requires IsFunded(ps[a]) && IsFunded(ps[b]) && IsFunded(ps[c]) && a != b
    ensures c == a || c == b
  {
    CountIsSize(ps, IsFunded);
    if c != a && c != b {
      var some: set<nat> := {a, b, c};
      assert some <= SeatsWhere(ps, IsFunded);
      SubsetSize(some, SeatsWhere(ps, IsFunded));
      assert false;
    }
  }

  lemma {:induction false} SubsetSize(a: set<nat>, b: set<nat>)
    requires a <= b
    ensures |a| <= |b|
  {
    if a != {} {
      var x :| x in a;
      SubsetSize(a - {x}, b - {x});
    }
  }

  lemma AfterMoves(ps: seq<Player>, seat: nat)
    requires seat < |ps| && Count(ps, IsFunded) >= 2
    ensures After(ps, seat) != seat
  {
    AfterNearest(ps, seat);
    CountTwo(ps, IsFunded);
    var i, j :| 0 <= i < j < |ps| && IsFunded(ps[i]) && IsFunded(ps[j]);
    assert Gap(|ps|, seat, After(ps, seat)) <= Gap(|ps|, seat, if i == seat then j else i);
  }

  lemma NextSeatingOpens(s: State)
    requires ReadyTable(s) && 2 <= Count(s.players, IsFunded)
    ensures var r := NextSeating(s); Opens(s.players, r.sb, r.bb, r.actor) && IsFunded(s.players[r.button])
  {
    var ps, r := s.players, NextSeating(s);
    AfterMoves(ps, r.sb);
    AfterMoves(ps, r.bb);
    AfterNearest(ps, r.sb);
    AfterNearest(ps, r.bb);
    if Count(ps, IsFunded) == 2 {
      TwoFundedOnly(ps, r.sb, r.bb, After(ps, r.bb));
    }
  }

  lemma NextHandFields(s: State, o: Option<AdvanceOptions>)
    requires ReadyTable(s) && NextHand(s, o).Ok?
    ensures Count(s.players, IsFunded) >= 2
    ensures var r, t := NextSeating(s), NextHand(s, o).value;
            && JustDealt(t, s.players, r.sb, r.bb, r.actor)
            && t.smallBlind == s.smallBlind && t.bigBlind == s.bigBlind && t.version == s.version + 1
            && t.buttonSeat == r.button
  {
    var r := NextSeating(s);
    ClockCounts(s.players, r.button);
    NewHandFields(s, o.value.handId, r.button, r.sb, r.bb, r.actor, o.value.deck);
  }

  lemma BettingTable(s: State)
    requires Betting(s)
    ensures ReadyTable(s) && Seated(s.players) && StacksOk(s.players)
    ensures 0 < s.smallBlind < s.bigBlind && s.version >= 0
  {
    Unfold(s);
    assert forall i | 0 <= i < |s.players| :: PlayerOk(s.players[i]);
  }

  /** The next hand is dealt in betting order. */
  lemma NextHandIsBetting(s: State, o: Option<AdvanceOptions>)
    requires Betting(s) && ReadyTable(s) && NextHand(s, o).Ok?
    ensures Betting(NextHand(s, o).value)
  {
    BettingTable(s);
    NextHandFields(s, o);
    NextSeatingOpens(s);
    var r := NextSeating(s);
    JustDealtIsBetting(NextHand(s, o).value, s.players, r.sb, r.bb, r.actor, r.actor);
  }

  /** The button moves to the nearest funded seat clockwise, never staying put. */
  lemma ButtonMoves(s: State, o: Option<AdvanceOptions>)
    requires ReadyTable(s) && NextHand(s, o).Ok?
    ensures var b := NextHand(s, o).value.buttonSeat;
            && 0 <= b < |s.players| && IsFunded(s.players[b]) && b != s.buttonSeat
            && forall j | 0 <= j < |s.players| && IsFunded(s.players[j]) ::
              Gap(|s.players|, s.buttonSeat, b) <= Gap(|s.players|, s.buttonSeat, j)
  {
    AfterMoves(s.players, s.buttonSeat);
    AfterNearest(s.players, s.buttonSeat);
  }

  lemma PostKeepsChips(ps: seq<Player>, sb: nat, bb: nat, small: int, big: int)
    requires StacksOk(ps) && 0 <= small && 0 <= big
    requires forall i | 0 <= i < |ps| :: ps[i].handCommitted == 0
    ensures Sum(PostAll(ps, sb, bb, small, big), ChipsOf) == Sum(ps, ChipsOf)
  {
    var posted := PostAll(ps, sb, bb, small, big);
    forall i | 0 <= i < |ps| ensures ChipsOf(ps[i]) == ChipsOf(posted[i]) {
      PostOk(ps[i], Forced(i, sb, bb, small, big));
    }
    SumMatches(ps, ChipsOf, posted, ChipsOf);
  }

  lemma NothingCommitted(s: State, o: Option<AdvanceOptions>)
    requires ReadyTable(s) && NextHand(s, o).Ok?
    ensures s.phase == Complete && forall i | 0 <= i < |s.players| :: s.players[i].handCommitted == 0
  {
  }

  /** Dealing the next hand moves chips but neither adds nor loses any. */
  lemma NextHandConserves(s: State, o: Option<AdvanceOptions>)
    requires Betting(s) && ReadyTable(s) && NextHand(s, o).Ok?
    ensures Chips(NextHand(s, o).value) == Chips(s)
  {
    BettingTable(s);
    NothingCommitted(s, o);
    NextHandFields(s, o);
    PostKeepsChips(s.players, NextSeating(s).sb, NextSeating(s).bb, s.smallBlind, s.bigBlind);
  }
}

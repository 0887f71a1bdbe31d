/** The dealing order, the cards it gives each player, and the two dealing procedures as written. */
module Dealing {
  import opened BettingInvariant
  import opened Cards
  import opened Lifecycle
  import opened Reducer
  import opened Sealing
  import opened Sequences
  import opened Table
  import opened Wrappers

  // ---- The dealing order ----

  predicate Clockwise(n: nat, button: nat, seats: seq<nat>)
    requires button < n
  {
    && (forall k | 0 <= k < |seats| :: seats[k] < n)
    && (forall j, k | 0 <= j < k < |seats| :: Gap(n, button, seats[j]) < Gap(n, button, seats[k]))
  }

  lemma {:induction false} ClockFromFacts(ps: seq<Player>, button: nat, offset: nat)
    requires button < |ps| && 1 <= offset
    ensures var r := ClockFrom(ps, button, offset);
            && Clockwise(|ps|, button, r)
            && (forall k | 0 <= k < |r| :: IsFunded(ps[r[k]]) && offset <= Gap(|ps|, button, r[k]))
            && (forall i: nat | i < |ps| && IsFunded(ps[i]) && offset <= Gap(|ps|, button, i) :: i in r)
    decreases |ps| + 1 - offset
  {
    if offset <= |ps| {
      StepSeat(|ps|, button, offset);
      var c := (button + offset) % |ps|;
      ClockFromFacts(ps, button, offset + 1);
      forall i: nat | i < |ps| && Gap(|ps|, button, i) == offset ensures i == c {
        GapInjective(|ps|, button, i, c);
      }
    }
  }

  /** The dealing order lists the funded seats, all of them, clockwise. */
  lemma ClockFacts(ps: seq<Player>, button: nat)
    requires button < |ps|
    ensures Clockwise(|ps|, button, Clock(ps, button))
    ensures forall i: nat :: i in Clock(ps, button) <==> i < |ps| && IsFunded(ps[i])
  {
    ClockFromFacts(ps, button, 1);
  }

  /** Of seats listed clockwise, the nearest one past the t-th is the one listed after it, around the end. */
  lemma NearestIsNext(n: nat, button: nat, seats: seq<nat>, t: nat, v: nat)
    requires button < n && Clockwise(n, button, seats) && t < |seats| && v < |seats|
    requires forall k | 0 <= k < |seats| :: Gap(n, seats[t], seats[v]) <= Gap(n, seats[t], seats[k])
    ensures v == if t + 1 < |seats| then t + 1 else 0
  {
    var u := if t + 1 < |seats| then t + 1 else 0;
    assert Gap(n, seats[t], seats[v]) <= Gap(n, seats[t], seats[u]);
    GapFrom(n, button, seats[t], seats[u]);
    GapFrom(n, button, seats[t], seats[v]);
  }

  lemma GapFrom(n: nat, button: nat, a: nat, i: nat)
    requires button < n && a < n && i < n
    ensures Gap(n, a, i)
            == var d := Gap(n, button, i) - Gap(n, button, a); if d > 0 then d else d + n
  {
  }

  lemma FundedInClock(ps: seq<Player>, button: nat, i: nat) returns (v: nat)
    requires button < |ps| && i < |ps| && IsFunded(ps[i])
    ensures v < |Clock(ps, button)| && Clock(ps, button)[v] == i
  {
    ClockFacts(ps, button);
    v :| 0 <= v < |Clock(ps, button)| && Clock(ps, button)[v] == i;
  }

  /** Clockwise from any seat of the order, the nearest funded seat is the next one in the order. */
  lemma NextInClock(ps: seq<Player>, button: nat, t: nat)
    requires button < |ps| && t < |Clock(ps, button)|
    ensures var clock := Clock(ps, button);
            NextFunded(ps, clock[t]) == Some(clock[if t + 1 < |clock| then t + 1 else 0])
  {
    var clock := Clock(ps, button);
    ClockFacts(ps, button);
    NextSeatNearest(ps, IsFunded, clock[t], 1);
    assert clock[t] in clock;
    var v := FundedInClock(ps, button, NextFunded(ps, clock[t]).value);
    forall k | 0 <= k < |clock| ensures Gap(|ps|, clock[t], clock[v]) <= Gap(|ps|, clock[t], clock[k]) {
      assert clock[k] in clock;
    }
    NearestIsNext(|ps|, button, clock, t, v);
  }

  lemma FarthestIsLast(n: nat, button: nat, seats: seq<nat>, u: nat)
    requires button < n && Clockwise(n, button, seats) && u < |seats| && seats[u] == button
    ensures u == |seats| - 1
  {
    assert Gap(n, button, seats[|seats| - 1]) <= Gap(n, button, seats[u]);
  }

  /** From the button, the nearest funded seat opens the order; a funded button closes it. */
  lemma ClockStarts(ps: seq<Player>, button: nat)
    requires button < |ps| && |Clock(ps, button)| > 0
    ensures NextFunded(ps, button) == Some(Clock(ps, button)[0])
    ensures IsFunded(ps[button]) ==> Clock(ps, button)[|Clock(ps, button)| - 1] == button
  {
    var clock := Clock(ps, button);
    ClockFacts(ps, button);
    NextSeatNearest(ps, IsFunded, button, 1);
    assert clock[0] in clock;
    var v := FundedInClock(ps, button, NextFunded(ps, button).value);
    if IsFunded(ps[button]) {
      var u := FundedInClock(ps, button, button);
      FarthestIsLast(|ps|, button, clock, u);
    }
  }

  lemma ClockDistinct(ps: seq<Player>, button: nat)
    requires button < |ps|
    ensures Distinct(Clock(ps, button))
    ensures UniqueIds(ps) ==> Distinct(IdsAt(ps, Clock(ps, button)))
  {
    var clock := Clock(ps, button);
    ClockFacts(ps, button);
    forall j, k | 0 <= j < k < |clock| ensures clock[j] != clock[k] {
      assert Gap(|ps|, button, clock[j]) < Gap(|ps|, button, clock[k]);
    }
  }

  function SeatsWhere(ps: seq<Player>, f: Player -> bool): set<nat> {
    set i: nat | i < |ps| && f(ps[i])
  }

  lemma {:induction false} CountIsSize(ps: seq<Player>, f: Player -> bool)
    ensures |SeatsWhere(ps, f)| == Count(ps, f)
  {
    if |ps| > 0 {
      var n := |ps| - 1;
      CountIsSize(ps[..n], f);
      assert forall i | 0 <= i < n :: ps[..n][i] == ps[i];
      assert SeatsWhere(ps, f) == SeatsWhere(ps[..n], f) + (if f(ps[n]) then {n} else {});
    }
  }

  lemma {:induction false} DistinctSize(s: seq<nat>, all: set<nat>)
    requires Distinct(s) && forall x :: x in s <==> x in all
    ensures |s| == |all|
  {
    if |s| == 0 {
      assert all == {};
    } else {
      var n := |s| - 1;
      assert forall i | 0 <= i < n :: s[..n][i] == s[i];
      assert s == s[..n] + [s[n]];
      assert s[n] !in s[..n];
      DistinctSize(s[..n], all - {s[n]});
    }
  }

  /** Every funded seat is in the dealing order, once. */
  lemma ClockCounts(ps: seq<Player>, button: nat)
    requires button < |ps|
    ensures |Clock(ps, button)| == Count(ps, IsFunded)
  {
    var clock := Clock(ps, button);
    ClockDistinct(ps, button);
    CountIsSize(ps, IsFunded);
    ClockFacts(ps, button);
    DistinctSize(clock, SeatsWhere(ps, IsFunded));
  }

  // ---- Hole cards ----

  lemma {:induction false} HoleCardsPrefix(ids: seq<PlayerId>, deck: seq<Card>, k: nat)
    requires Distinct(ids) && k <= |ids| && 2 * |ids| <= |deck|
    ensures forall id :: id in HoleCards(ids, deck, k) <==> id in ids[..k]
    ensures forall t | 0 <= t < k :: HoleCards(ids, deck, k)[ids[t]] == [deck[t], deck[|ids| + t]]
  {
    if k > 0 {
      HoleCardsPrefix(ids, deck, k - 1);
      assert ids[..k] == ids[..k - 1] + [ids[k - 1]];
    }
  }

  /** The player in place t of the dealing order holds the t-th card of each of the two rounds, nothing else. */
  lemma EachDealtTwo(ids: seq<PlayerId>, deck: seq<Card>)
    requires Distinct(ids) && 2 * |ids| <= |deck|
    ensures forall id :: id in HoleCards(ids, deck, |ids|) <==> id in ids
    ensures forall t | 0 <= t < |ids| :: HoleCards(ids, deck, |ids|)[ids[t]] == [deck[t], deck[|ids| + t]]
  {
    HoleCardsPrefix(ids, deck, |ids|);
    assert ids[..|ids|] == ids;
  }

  /** What place t of the order holds after x cards have been dealt. */
  function Held(deck: seq<Card>, m: nat, x: nat, t: nat): seq<Card>
    requires x <= 2 * m <= |deck| && t < m
  {
    (if t < x then [deck[t]] else []) + (if m + t < x then [deck[m + t]] else [])
  }

  ghost predicate DealtFacts(cards: map<PlayerId, seq<Card>>, ids: seq<PlayerId>, deck: seq<Card>, x: nat)
    requires x <= 2 * |ids| <= |deck|
  {
    && (forall id :: id in cards <==> id in ids)
    && (forall t | 0 <= t < |ids| :: cards[ids[t]] == Held(deck, |ids|, x, t))
  }

  ghost predicate DealtSoFar(cards: map<PlayerId, seq<Card>>, ids: seq<PlayerId>, deck: seq<Card>, x: nat)
    requires x <= 2 * |ids| <= |deck|
  {
    forall k {:trigger Open(DealtSoFarSeal, k)} :: Open(DealtSoFarSeal, k) ==> DealtFacts(cards, ids, deck, x)
  }

  /** One more card, to the player whose turn it is to be dealt one. */
  method DealCard(cards: map<PlayerId, seq<Card>>, ghost ids: seq<PlayerId>, deck: seq<Card>, x: nat, ghost u: nat,
                  id: PlayerId)
    returns (next: map<PlayerId, seq<Card>>)
    requires x < 2 * |ids| <= |deck| && Distinct(ids) && DealtSoFar(cards, ids, deck, x)
    requires u < |ids| && (x == u || x == |ids| + u) && id == ids[u]
    ensures DealtSoFar(next, ids, deck, x + 1)
  {
    assert Open(DealtSoFarSeal, 0);
    assert cards[ids[u]] == Held(deck, |ids|, x, u);
    next := cards[id := cards[id] + [deck[x]]];
    forall t | 0 <= t < |ids| ensures next[ids[t]] == Held(deck, |ids|, x + 1, t) {
      if t != u {
        assert ids[t] != ids[u];
      }
    }
  }

  lemma DealtNone(cards: map<PlayerId, seq<Card>>, ids: seq<PlayerId>, deck: seq<Card>)
    requires 2 * |ids| <= |deck|
    requires forall id :: id in cards <==> id in ids
    requires forall id | id in cards :: cards[id] == []
    ensures DealtSoFar(cards, ids, deck, 0)
  {
  }

  lemma DealtAllAt(cards: map<PlayerId, seq<Card>>, ids: seq<PlayerId>, deck: seq<Card>, t: nat)
    requires 2 * |ids| <= |deck| && DealtFacts(cards, ids, deck, 2 * |ids|) && t < |ids|
    ensures ids[t] in cards && cards[ids[t]] == [deck[t], deck[|ids| + t]]
  {
  }

  lemma DealtAll(cards: map<PlayerId, seq<Card>>, ids: seq<PlayerId>, deck: seq<Card>)
    requires 2 * |ids| <= |deck| && Distinct(ids) && DealtSoFar(cards, ids, deck, 2 * |ids|)
    ensures cards == HoleCards(ids, deck, |ids|)
  {
    assert Open(DealtSoFarSeal, 0);
    EachDealtTwo(ids, deck);
    var held := HoleCards(ids, deck, |ids|);
    assert forall id :: id in cards <==> id in held;
    forall t: nat | t < |ids| ensures cards[ids[t]] == held[ids[t]] {
      DealtAllAt(cards, ids, deck, t);
    }
    assert cards.Keys == held.Keys;
  }

  /** A player holding nothing yet, for each of the ids. */
  method EmptyHands(ids: seq<PlayerId>) returns (cards: map<PlayerId, seq<Card>>)
    ensures forall id :: id in cards <==> id in ids
    ensures forall id | id in cards :: cards[id] == []
  {
    cards := map[];
    for k := 0 to |ids|
      invariant forall id :: id in cards <==> id in ids[..k]
      invariant forall id | id in cards :: cards[id] == []
    {
      cards := cards[ids[k] := []];
      assert ids[..k + 1] == ids[..k] + [ids[k]];
    }
    assert ids[..|ids|] == ids;
  }

  // ---- The first hand ----

  lemma ClockFits(ps: seq<Player>, button: nat)
    requires button < |ps| <= 9
    ensures |Clock(ps, button)| <= 9
  {
    ClockCounts(ps, button);
  }

  /** The dealt first hand, or why it cannot be dealt. */
  function FirstHand(o: StartOptions): Result<State, StartError> {
    if StartFault(o).Some? then Err(StartFault(o).value)
    else
      var s := EmptyTable(o);
      var (sb, bb) := StartBlinds(|o.players|, o.buttonSeat);
      var ps := PostAll(s.players, sb, bb, o.smallBlind, o.bigBlind);
      ClockFits(s.players, o.buttonSeat);
      Ok(NewHand(s, o.handId, o.buttonSeat, sb, bb, StartActor(ps, o.buttonSeat), o.deck))
  }

  /** With every seat funded the dealing order is simply seat after seat. */
  lemma FullClock(ps: seq<Player>, button: nat)
    requires button < |ps| && forall i | 0 <= i < |ps| :: IsFunded(ps[i])
    ensures |Clock(ps, button)| == |ps|
    ensures Clock(ps, button)[0] == SeatAfter(button, |ps|)
    ensures forall t | 0 <= t < |ps| ::
              SeatAfter(Clock(ps, button)[t], |ps|) == Clock(ps, button)[if t + 1 < |ps| then t + 1 else 0]
  {
    var clock := Clock(ps, button);
    CountNoneOf(ps);
    ClockCounts(ps, button);
    ClockStarts(ps, button);
    assert NextFunded(ps, button) == Some((button + 1) % |ps|);
    forall t | 0 <= t < |ps| ensures SeatAfter(clock[t], |ps|) == clock[if t + 1 < |ps| then t + 1 else 0] {
      NextInClock(ps, button, t);
      assert NextFunded(ps, clock[t]) == Some((clock[t] + 1) % |ps|);
    }
  }

  lemma {:induction false} CountNoneOf(ps: seq<Player>)
    requires forall i | 0 <= i < |ps| :: IsFunded(ps[i])
    ensures Count(ps, IsFunded) == |ps|
  {
    if |ps| > 0 {
      assert forall i | 0 <= i < |ps| - 1 :: ps[..|ps| - 1][i] == ps[i];
      CountNoneOf(ps[..|ps| - 1]);
    }
  }

  /** Walks the table twice from the left of the button. */
  method DealOrder(n: nat, button: nat, ghost clock: seq<nat>) returns (order: seq<nat>)
    requires n == |clock| > 0 && clock[0] == SeatAfter(button, n)
    requires forall t | 0 <= t < n :: SeatAfter(clock[t], n) == clock[if t + 1 < n then t + 1 else 0]
    ensures order == clock + clock
  {
    order := [];
    var seat := SeatAfter(button, n);
    for round := 0 to 2
      invariant order == if round == 0 then [] else if round == 1 then clock else clock + clock
      invariant seat == clock[0]
    {
      ghost var before := order;
      for dealt := 0 to n
        invariant order == before + clock[..dealt]
        invariant seat == clock[if dealt < n then dealt else 0]
      {
        order := order + [seat];
        assert clock[..dealt + 1] == clock[..dealt] + [clock[dealt]];
        seat := SeatAfter(seat, n);
      }
      assert clock[..n] == clock;
    }
  }

  method DealInOrder(ps: seq<Player>, order: seq<nat>, deck: seq<Card>, ghost clock: seq<nat>)
    returns (cards: map<PlayerId, seq<Card>>)
    requires |order| <= |deck| && forall t | 0 <= t < |clock| :: clock[t] < |ps|
    requires order == clock + clock && Distinct(IdsAt(ps, clock))
    requires forall i: nat | i < |ps| :: i in clock
    ensures cards == HoleCards(IdsAt(ps, clock), deck, |clock|)
  {
    ghost var ids := IdsAt(ps, clock);
    AllIdsDealt(ps, clock);
    cards := EmptyHands(AllIds(ps));
    DealtNone(cards, ids, deck);
    for index := 0 to |order|
      invariant DealtSoFar(cards, ids, deck, index)
    {
      ghost var u := if index < |clock| then index else index - |clock|;
      assert order[index] == clock[u];
      cards := DealCard(cards, ids, deck, index, u, ps[order[index]].id);
    }
    DealtAll(cards, ids, deck);
  }

  function AllIds(ps: seq<Player>): seq<PlayerId> { seq(|ps|, i requires 0 <= i < |ps| => ps[i].id) }

  lemma AllIdsDealt(ps: seq<Player>, clock: seq<nat>)
    requires forall t | 0 <= t < |clock| :: clock[t] < |ps|
    requires forall i: nat | i < |ps| :: i in clock
    ensures forall id :: id in AllIds(ps) <==> id in IdsAt(ps, clock)
  {
    var all, ids := AllIds(ps), IdsAt(ps, clock);
    forall id ensures id in all <==> id in ids {
      if id in all {
        var i: nat :| i < |ps| && all[i] == id;
        assert i in clock;
        var t :| 0 <= t < |clock| && clock[t] == i;
        assert ids[t] == id;
      }
      if id in ids {
        var t :| 0 <= t < |clock| && ids[t] == id;
        assert all[clock[t]] == id;
      }
    }
  }

  /** The two rounds of the first hand, seat after seat. */
  method DealSeats(ps: seq<Player>, button: nat, deck: seq<Card>) returns (cards: map<PlayerId, seq<Card>>)
    requires button < |ps| && UniqueIds(ps) && 2 * |ps| <= |deck|
    requires forall i | 0 <= i < |ps| :: IsFunded(ps[i])
    ensures |Clock(ps, button)| == |ps|
    ensures cards == HoleCards(IdsAt(ps, Clock(ps, button)), deck, |ps|)
  {
    ghost var clock := Clock(ps, button);
    FullClock(ps, button);
    ClockDistinct(ps, button);
    ClockFacts(ps, button);
    var order := DealOrder(|ps|, button, clock);
    cards := DealInOrder(ps, order, deck, clock);
  }

  /** Steps clockwise until an active player is found, at most once around. */
  method FindActor(ps: seq<Player>, first: nat) returns (actor: nat)
    requires first < |ps|
    ensures actor == OpeningSeat(ps, first)
  {
    actor := first;
    var offset := 0;
    SmallMod(first, |ps|);
    while offset < |ps| && !IsActive(ps[actor])
      invariant 0 <= offset <= |ps|
      invariant actor == (first + offset) % |ps|
      invariant offset > 0 ==> !IsActive(ps[first])
      invariant offset > 0 ==>
                  NextSeatFrom(ps, IsActive, first, 1) == NextSeatFrom(ps, IsActive, first, offset)
    {
      StepMod(first, offset, |ps|);
      actor := SeatAfter(actor, |ps|);
      offset := offset + 1;
    }
    if offset == |ps| {
      WrapMod(first + offset, |ps|);
    }
  }

  lemma StepMod(first: nat, offset: nat, n: nat)
    requires first < n && offset < n
    ensures SeatAfter((first + offset) % n, n) == (first + offset + 1) % n
  {
    if first + offset < n {
      SmallMod(first + offset, n);
    } else {
      WrapMod(first + offset, n);
      SmallMod(first + offset - n + 1, n);
      if first + offset + 1 == 2 * n {
      } else {
        WrapMod(first + offset + 1, n);
      }
    }
  }

  method StartHand(o: StartOptions) returns (r: Result<State, StartError>)
    ensures r == FirstHand(o)
  {
    var fault := StartFault(o);
    if fault.Some? {
      return Err(fault.value);
    }
    StartSeats(o);
    var dealt := StartDealt(o);
    r := Ok(dealt);
  }

  lemma StartSeats(o: StartOptions)
    requires StartFault(o).None?
    ensures 2 <= |o.players| <= 9 && 0 <= o.buttonSeat < |o.players| && |o.deck| == DECK_SIZE
    ensures UniqueIds(Seats(o.players)) && forall i | 0 <= i < |o.players| :: IsFunded(Seats(o.players)[i])
    ensures |Clock(Seats(o.players), o.buttonSeat)| <= 9
  {
    ClockFits(Seats(o.players), o.buttonSeat);
  }

  method StartDealt(o: StartOptions) returns (s: State)
    requires StartFault(o).None?
    ensures FirstHand(o) == Ok(s)
  {
    StartSeats(o);
    var n := |o.players|;
    var seated := Seats(o.players);
    var holeCards := DealSeats(seated, o.buttonSeat, o.deck);
    var deck := o.deck[2 * n..];
    var smallBlindSeat := if n == 2 then o.buttonSeat else SeatAfter(o.buttonSeat, n);
    var bigBlindSeat := SeatAfter(smallBlindSeat, n);
    var players := PostAll(seated, smallBlindSeat, bigBlindSeat, o.smallBlind, o.bigBlind);
    var currentBet := MaxStreet(players);
    var firstSeat := if n == 2 then o.buttonSeat else SeatAfter(bigBlindSeat, n);
    var actor := FindActor(players, firstSeat);
    var active := Count(players, IsActive);
    var bettingComplete := active == 0 || (active == 1 && players[actor].streetCommitted == currentBet);
    SoleActorMatches(players, firstSeat, currentBet);
    s := State(
      o.tableId, o.handId, if bettingComplete then Complete else Preflop, 0, o.buttonSeat, players[actor].id,
      currentBet, o.bigBlind, o.smallBlind, o.bigBlind, players, [], IdsOf(players, IsActive), map[],
      deck, [], holeCards);
  }

  /** With one active player, the search ends at that player. */
  lemma SoleActorMatches(ps: seq<Player>, first: nat, bet: int)
    requires first < |ps|
    ensures Count(ps, IsActive) == 1 ==>
              (ps[OpeningSeat(ps, first)].streetCommitted == bet <==> AllActiveMatched(ps, bet))
  {
    if Count(ps, IsActive) == 1 {
      CountNone(ps, IsActive);
      CountTwo(ps, IsActive);
      NextSeatNearest(ps, IsActive, first, 1);
      var c := OpeningSeat(ps, first);
      assert IsActive(ps[c]);
      forall i | 0 <= i < |ps| && ps[i].status == Active ensures i == c {
        assert IsActive(ps[i]);
      }
    }
  }

  // ---- The next hand ----

  predicate ReadyTable(s: State) {
    SeatsInOrder(s.players) && UniqueIds(s.players) && 0 <= s.buttonSeat < |s.players|
  }

  lemma FundedNext(ps: seq<Player>, seat: nat)
    requires |ps| > 0 && seat < |ps| && Count(ps, IsFunded) >= 1
    ensures NextFunded(ps, seat).Some?
  {
    CountNone(ps, IsFunded);
    NextSeatNearest(ps, IsFunded, seat, 1);
  }

  /** The funded seat after the given one. */
  function After(ps: seq<Player>, seat: nat): (next: nat)
    requires seat < |ps| && Count(ps, IsFunded) >= 1
    ensures next < |ps| && IsFunded(ps[next])
  {
    FundedNext(ps, seat);
    NextFunded(ps, seat).value
  }

  datatype Seating = Seating(button: nat, sb: nat, bb: nat, actor: nat)

  /** The next hand's seats: the button and the blinds move to funded seats, two players play heads up. */
  function NextSeating(s: State): (r: Seating)
    requires ReadyTable(s) && 2 <= Count(s.players, IsFunded)
    ensures r.button < |s.players| && r.sb < |s.players| && r.bb < |s.players| && r.actor < |s.players|
  {
    var ps := s.players;
    var button := After(ps, s.buttonSeat);
    var sb := if Count(ps, IsFunded) == 2 then button else After(ps, button);
    var bb := After(ps, sb);
    Seating(button, sb, bb, if Count(ps, IsFunded) == 2 then button else After(ps, bb))
  }

  function DealtFrom(s: State, handId: string, deck: seq<Card>): State
    requires ReadyTable(s) && 2 <= Count(s.players, IsFunded) <= 9 && |deck| == DECK_SIZE
  {
    var r := NextSeating(s);
    ClockCounts(s.players, r.button);
    NewHand(s, handId, r.button, r.sb, r.bb, r.actor, deck).(version := s.version + 1)
  }

  /** The next hand dealt from a settled table, or why it cannot be dealt. */
  function NextHand(s: State, o: Option<AdvanceOptions>): Result<State, StartError>
    requires ReadyTable(s)
  {
    if AdvanceFault(s, o).Some? then Err(AdvanceFault(s, o).value)
    else Ok(DealtFrom(s, o.value.handId, o.value.deck))
  }

  method AdvanceHand(s: State, o: Option<AdvanceOptions>) returns (r: Result<State, StartError>)
    requires ReadyTable(s)
    ensures r == NextHand(s, o)
  {
    var fault := AdvanceFault(s, o);
    if fault.Some? {
      return Err(fault.value);
    }
    var dealt := AdvanceDealt(s, o.value.handId, o.value.deck);
    r := Ok(dealt);
  }

  method AdvanceDealt(s: State, handId: string, deck: seq<Card>) returns (t: State)
    requires ReadyTable(s) && 2 <= Count(s.players, IsFunded) <= 9 && |deck| == DECK_SIZE
    ensures t == DealtFrom(s, handId, deck)
  {
    var seating := AdvanceSeats(s);
    ClockCounts(s.players, seating.button);
    var players := PostAll(s.players, seating.sb, seating.bb, s.smallBlind, s.bigBlind);
    var holeCards, dealt := DealAround(s.players, seating.button, deck);
    var currentBet := MaxStreet(players);
    t := s.(handId := handId,
            phase := if DealtOut(players, currentBet) then Complete else Preflop,
            version := s.version + 1,
            buttonSeat := seating.button,
            actorId := s.players[seating.actor].id,
            currentBet := currentBet,
            minimumRaise := s.bigBlind,
            players := players,
            acted := [],
            raiseRights := IdsOf(players, IsActive),
            lastActedBet := map[],
            deck := deck[dealt..],
            board := [],
            holeCards := holeCards);
  }

  method AdvanceSeats(s: State) returns (r: Seating)
    requires ReadyTable(s) && 2 <= Count(s.players, IsFunded)
    ensures r == NextSeating(s)
  {
    var funded := Count(s.players, IsFunded);
    var button := NextSeat(s.players, s.buttonSeat);
    var smallBlind := button;
    if funded != 2 {
      smallBlind := NextSeat(s.players, button);
    }
    var bigBlind := NextSeat(s.players, smallBlind);
    var actor := button;
    if funded != 2 {
      actor := NextSeat(s.players, bigBlind);
    }
    r := Seating(button, smallBlind, bigBlind, actor);
  }

  method NextSeat(ps: seq<Player>, seat: nat) returns (next: nat)
    requires seat < |ps| && Count(ps, IsFunded) >= 1
    ensures next == After(ps, seat)
  {
    FundedNext(ps, seat);
    var found := NextFundedPlayer(ps, seat);
    next := found.value;
  }

  method FirstDealt(ps: seq<Player>, button: nat) returns (seat: nat)
    requires button < |ps| && |Clock(ps, button)| >= 1
    ensures seat == Clock(ps, button)[0]
  {
    ClockCounts(ps, button);
    ClockStarts(ps, button);
    seat := NextSeat(ps, button);
  }

  method NextDealt(ps: seq<Player>, button: nat, seat: nat, ghost t: nat) returns (next: nat)
    requires button < |ps| && t < |Clock(ps, button)| && seat == Clock(ps, button)[t]
    ensures next == Clock(ps, button)[if t + 1 < |Clock(ps, button)| then t + 1 else 0]
  {
    ClockCounts(ps, button);
    NextInClock(ps, button, t);
    next := NextSeat(ps, seat);
  }

  /** clock is the dealing order and ids are its players. */
  ghost predicate DealsTo(ps: seq<Player>, button: nat, clock: seq<nat>, ids: seq<PlayerId>) {
    && |clock| == |ids| == Count(ps, IsFunded)
    && forall k {:trigger Open(DealsToSeal, k)} :: Open(DealsToSeal, k) ==>
      button < |ps| && clock == Clock(ps, button) && ids == IdsAt(ps, clock) && Distinct(ids)
  }

  method StartRound(ps: seq<Player>, button: nat, ghost clock: seq<nat>, ghost ids: seq<PlayerId>)
    returns (seat: nat)
    requires |clock| >= 1 && DealsTo(ps, button, clock, ids)
    ensures seat == clock[0]
  {
    assert Open(DealsToSeal, 0);
    seat := FirstDealt(ps, button);
  }

  /** A card to the seat whose turn it is, and the seat after it. */
  method DealSeat(ps: seq<Player>, button: nat, deck: seq<Card>, cards0: map<PlayerId, seq<Card>>, dealt: nat,
                  seat: nat, ghost t: nat, ghost clock: seq<nat>, ghost ids: seq<PlayerId>)
    returns (cards: map<PlayerId, seq<Card>>, next: nat)
    requires DealsTo(ps, button, clock, ids) && t < |clock| && seat == clock[t]
    requires dealt == t || dealt == |ids| + t
    requires 2 * |ids| <= |deck| && DealtSoFar(cards0, ids, deck, dealt)
    ensures DealtSoFar(cards, ids, deck, dealt + 1)
    ensures next == clock[if t + 1 < |clock| then t + 1 else 0]
  {
    assert Open(DealsToSeal, 0);
    cards := DealCard(cards0, ids, deck, dealt, t, ps[seat].id);
    next := NextDealt(ps, button, seat, t);
  }

  method DealRounds(ps: seq<Player>, button: nat, deck: seq<Card>, empty: map<PlayerId, seq<Card>>,
                    ghost clock: seq<nat>, ghost ids: seq<PlayerId>)
    returns (cards: map<PlayerId, seq<Card>>, dealt: nat)
    requires DealsTo(ps, button, clock, ids) && 1 <= |ids| && 2 * |ids| <= |deck|
    requires DealtSoFar(empty, ids, deck, 0)
    ensures dealt == 2 * |ids| && DealtSoFar(cards, ids, deck, dealt)
  {
    var funded := Count(ps, IsFunded);
    var seat := StartRound(ps, button, clock, ids);
    cards := empty;
    dealt := 0;
    for round := 0 to 2
      invariant dealt == round * funded && seat == clock[0]
      invariant DealtSoFar(cards, ids, deck, dealt)
    {
      for count := 0 to funded
        invariant dealt == round * funded + count
        invariant seat == clock[if count < funded then count else 0]
        invariant DealtSoFar(cards, ids, deck, dealt)
      {
        cards, seat := DealSeat(ps, button, deck, cards, dealt, seat, count, clock, ids);
        dealt := dealt + 1;
      }
    }
  }

  /** Two rounds from the left of the button, one card at a time to each funded seat. */
  method DealAround(ps: seq<Player>, button: nat, deck: seq<Card>)
    returns (cards: map<PlayerId, seq<Card>>, dealt: nat)
    requires button < |ps| && UniqueIds(ps)
    requires 1 <= |Clock(ps, button)| && 2 * |Clock(ps, button)| <= |deck|
    ensures dealt == 2 * |Clock(ps, button)|
    ensures cards == HoleCards(IdsAt(ps, Clock(ps, button)), deck, |Clock(ps, button)|)
  {
    ghost var clock := Clock(ps, button);
    ghost var ids := IdsAt(ps, clock);
    ClockDistinct(ps, button);
    ClockCounts(ps, button);
    FundedIds(ps, button);
    cards := EmptyHands(IdsOf(ps, IsFunded));
    DealtNone(cards, ids, deck);
    cards, dealt := DealRounds(ps, button, deck, cards, clock, ids);
    DealtAll(cards, ids, deck);
  }

  lemma FundedIds(ps: seq<Player>, button: nat)
    requires button < |ps|
    ensures forall id :: id in IdsOf(ps, IsFunded) <==> id in IdsAt(ps, Clock(ps, button))
  {
    var ids := IdsAt(ps, Clock(ps, button));
    forall id | id in IdsOf(ps, IsFunded) ensures id in ids {
      var i: nat :| i < |ps| && ps[i].id == id && IsFunded(ps[i]);
      var v := FundedInClock(ps, button, i);
      assert ids[v] == id;
    }
    ClockFacts(ps, button);
    forall id | id in ids ensures id in IdsOf(ps, IsFunded) {
      var t :| 0 <= t < |ids| && ids[t] == id;
      assert Clock(ps, button)[t] in Clock(ps, button);
    }
  }
}

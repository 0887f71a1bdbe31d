/** Where every card on the table comes from: the board depends on the deck alone, and no card appears twice. */
module Board {
  import opened BettingInvariant
  import opened BettingSteps
  import opened Cards
  import opened Dealing
  import opened Evaluator
  import opened Fairness
  import opened Lifecycle
  import opened NewHands
  import opened Pots
  import opened Reducer
  import opened Sealing
  import opened Sequences
  import opened Settlement
  import opened Table
  import opened Termination
  import opened Wrappers

  /** A shuffled deck and the players it is dealt to, in dealing order. */
  datatype Deal = Deal(deck: seq<Card>, ids: seq<PlayerId>)

  predicate DealOk(d: Deal) {
    Distinct52(d.deck) && Distinct(d.ids) && 2 <= |d.ids| <= 9
  }

  /** The first card after the hole cards. */
  function Base(d: Deal): nat { 2 * |d.ids| }

  predicate BoardSize(size: nat) { size == 0 || size == 3 || size == 4 || size == 5 }

  /** Cards taken from the deck for a board of this size: one burnt before the flop, the turn and the river. */
  function Drawn(size: nat): nat
    requires BoardSize(size)
  {
    if size == 0 then 0 else if size == 3 then 4 else if size == 4 then 6 else 8
  }

  function BoardCards(d: Deal, size: nat): (r: seq<Card>)
    requires DealOk(d) && BoardSize(size)
    ensures |r| == size
  {
    if size == 0 then []
    else if size == 3 then d.deck[Base(d) + 1..Base(d) + 4]
    else if size == 4 then d.deck[Base(d) + 1..Base(d) + 4] + [d.deck[Base(d) + 5]]
    else d.deck[Base(d) + 1..Base(d) + 4] + [d.deck[Base(d) + 5], d.deck[Base(d) + 7]]
  }

  function SizeAt(phase: Phase): nat {
    match phase
    case Preflop => 0
    case Flop => 3
    case Turn => 4
    case _ => 5
  }

  predicate Participated(p: Player) { p.stack > 0 || p.handCommitted > 0 || p.status != Folded }

  predicate TakersDealt(ps: seq<Player>, ids: seq<PlayerId>) {
    && (forall i | 0 <= i < |ps| :: Participated(ps[i]) ==> ps[i].id in ids)
    && (forall id | id in ids :: IsPlayer(ps, id))
  }

  /** Board and remaining deck are cut from the deal at the same place. */
  predicate CutFrom(board: seq<Card>, deck: seq<Card>, d: Deal) {
    && DealOk(d)
    && BoardSize(|board|)
    && board == BoardCards(d, |board|)
    && deck == d.deck[Base(d) + Drawn(|board|)..]
  }

  predicate CardsFrom(s: State, d: Deal) {
    && CutFrom(s.board, s.deck, d)
    && (s.phase != Complete ==> |s.board| == SizeAt(s.phase))
    && s.holeCards == HoleCards(d.ids, d.deck, |d.ids|)
    && TakersDealt(s.players, d.ids)
  }

  // ---- Streets and run-outs ----

  /** Dealing a street takes the next cut of the same deal. */
  lemma StreetCut(board: seq<Card>, deck: seq<Card>, d: Deal, phase: Phase)
    requires CutFrom(board, deck, d) && phase != Complete && |board| == SizeAt(phase)
    ensures var (b, k) := DealBoard(board, deck, NextPhase(phase));
            CutFrom(b, k, d) && (NextPhase(phase) != Complete ==> |b| == SizeAt(NextPhase(phase)))
  {
    var base := Base(d);
    var rest := d.deck[base + Drawn(|board|)..];
    assert |rest| >= 26;
    if phase == Preflop {
      assert Slice(rest, 1, 4) == d.deck[base + 1..base + 4];
      assert Slice(rest, 4, |rest|) == d.deck[base + 4..];
    } else if phase == Flop {
      assert Slice(rest, 1, 2) == [d.deck[base + 5]];
      assert Slice(rest, 2, |rest|) == d.deck[base + 6..];
    } else if phase == Turn {
      assert Slice(rest, 1, 2) == [d.deck[base + 7]];
      assert Slice(rest, 2, |rest|) == d.deck[base + 8..];
      assert board + [d.deck[base + 7]] == BoardCards(d, 5);
    }
  }

  lemma RunOutLast(board: seq<Card>, deck: seq<Card>, d: Deal)
    requires CutFrom(board, deck, d) && |board| == 4
    ensures RunOutFrom(board, deck) == Ok(Cut(BoardCards(d, 5), d.deck[Base(d) + 8..]))
  {
    assert deck[1] == d.deck[Base(d) + 7];
    assert deck[2..] == d.deck[Base(d) + 8..];
    assert board + [deck[1]] == BoardCards(d, 5);
  }

  lemma RunOutTwo(board: seq<Card>, deck: seq<Card>, d: Deal)
    requires CutFrom(board, deck, d) && |board| == 3
    ensures RunOutFrom(board, deck) == Ok(Cut(BoardCards(d, 5), d.deck[Base(d) + 8..]))
  {
    assert deck[1] == d.deck[Base(d) + 5];
    assert deck[2..] == d.deck[Base(d) + 6..];
    RunOutLast(board + [deck[1]], deck[2..], d);
  }

  /** From any street the run-out ends with the board that dealing street by street would have given. */
  lemma RunOutCut(board: seq<Card>, deck: seq<Card>, d: Deal)
    requires CutFrom(board, deck, d)
    ensures RunOut(board, deck) == Ok(Cut(BoardCards(d, 5), d.deck[Base(d) + 8..]))
  {
    if |board| == 0 {
      assert board + deck[1..4] == BoardCards(d, 3);
      assert deck[4..] == d.deck[Base(d) + 4..];
      RunOutTwo(board + deck[1..4], deck[4..], d);
    } else if |board| == 3 {
      RunOutTwo(board, deck, d);
    } else if |board| == 4 {
      RunOutLast(board, deck, d);
    }
  }

  // ---- No card twice ----

  function SeatHands(ps: seq<Player>, hands: map<PlayerId, seq<Card>>): seq<Card> {
    if |ps| == 0 then []
    else
      var id := ps[|ps| - 1].id;
      SeatHands(ps[..|ps| - 1], hands) + (if id in hands then hands[id] else [])
  }

  /** Every card in play: the undealt ones, the board, and the hands in seat order. */
  function AllCards(s: State): seq<Card> { s.deck + s.board + SeatHands(s.players, s.holeCards) }

  /** x is the deck position of a card dealt to one of the ids. */
  predicate DealtTo(d: Deal, id: PlayerId, x: nat) {
    x < Base(d) && (if x < |d.ids| then d.ids[x] == id else d.ids[x - |d.ids|] == id)
  }

  /** The first k seats' hands come from different hole-card positions, each belonging to one of these seats. */
  ghost predicate HandsPlaced(ps: seq<Player>, k: nat, d: Deal, hands: seq<Card>, xs: seq<nat>)
    requires DealOk(d)
  {
    && |xs| == |hands| && k <= |ps|
    && (forall i | 0 <= i < |xs| :: xs[i] < Base(d) && hands[i] == d.deck[xs[i]])
    && (forall i | 0 <= i < |xs| :: DealtAmong(ps, k, d, xs[i]))
    && Distinct(xs)
  }

  ghost predicate DealtAmong(ps: seq<Player>, k: nat, d: Deal, x: nat)
    requires k <= |ps|
  {
    exists j :: 0 <= j < k && DealtTo(d, ps[j].id, x)
  }

  lemma PlaceOne(ps: seq<Player>, k: nat, d: Deal, hands: seq<Card>, xs: seq<nat>, t: nat)
    requires DealOk(d) && k < |ps| && UniqueIds(ps) && t < |d.ids| && d.ids[t] == ps[k].id
    requires HandsPlaced(ps, k, d, hands, xs)
    ensures HandsPlaced(ps, k + 1, d, hands + [d.deck[t], d.deck[|d.ids| + t]], xs + [t, |d.ids| + t])
  {
    var ys := xs + [t, |d.ids| + t];
    forall i | 0 <= i < |xs| ensures xs[i] != t && xs[i] != |d.ids| + t {
      var j :| 0 <= j < k && DealtTo(d, ps[j].id, xs[i]);
      assert ps[j].id != ps[k].id;
    }
    forall i | 0 <= i < |ys| ensures DealtAmong(ps, k + 1, d, ys[i]) {
      if i < |xs| {
        var j :| 0 <= j < k && DealtTo(d, ps[j].id, xs[i]);
        assert DealtTo(d, ps[j].id, ys[i]);
      } else {
        assert DealtTo(d, ps[k].id, ys[i]);
      }
    }
  }

  lemma PlaceNone(ps: seq<Player>, k: nat, d: Deal, hands: seq<Card>, xs: seq<nat>)
    requires DealOk(d) && k < |ps| && HandsPlaced(ps, k, d, hands, xs)
    ensures HandsPlaced(ps, k + 1, d, hands, xs)
  {
    forall i | 0 <= i < |xs| ensures DealtAmong(ps, k + 1, d, xs[i]) {
      assert DealtAmong(ps, k, d, xs[i]);
    }
  }

  lemma {:induction false} PlaceHands(ps: seq<Player>, k: nat, d: Deal) returns (xs: seq<nat>)
    requires DealOk(d) && k <= |ps| && UniqueIds(ps)
    ensures HandsPlaced(ps, k, d, SeatHands(ps[..k], HoleCards(d.ids, d.deck, |d.ids|)), xs)
  {
    var held := HoleCards(d.ids, d.deck, |d.ids|);
    if k == 0 {
      xs := [];
    } else {
      var before := PlaceHands(ps, k - 1, d);
      EachDealtTwo(d.ids, d.deck);
      assert ps[..k][..k - 1] == ps[..k - 1];
      var id := ps[k - 1].id;
      if id in held {
        var t :| 0 <= t < |d.ids| && d.ids[t] == id;
        PlaceOne(ps, k - 1, d, SeatHands(ps[..k - 1], held), before, t);
        xs := before + [t, |d.ids| + t];
      } else {
        PlaceNone(ps, k - 1, d, SeatHands(ps[..k - 1], held), before);
        assert SeatHands(ps[..k], held) == SeatHands(ps[..k - 1], held);
        xs := before;
      }
    }
  }

  lemma DistinctAt(deck: seq<Card>, cards: seq<Card>, xs: seq<nat>)
    requires Distinct(deck) && Distinct(xs) && |xs| == |cards|
    requires forall i | 0 <= i < |xs| :: xs[i] < |deck| && cards[i] == deck[xs[i]]
    ensures Distinct(cards)
  {
  }

  function BoardPlaces(base: nat): seq<nat> { [base + 1, base + 2, base + 3, base + 5, base + 7] }

  /** The deck positions of the undealt cards, then of the board. */
  function StubPlaces(d: Deal, size: nat): (xs: seq<nat>)
    requires DealOk(d) && BoardSize(size)
    ensures |xs| == 52 - Base(d) - Drawn(size) + size
    ensures forall i | 0 <= i < |xs| :: Base(d) <= xs[i] < 52
    ensures Distinct(xs)
  {
    var from := Base(d) + Drawn(size);
    seq(52 - from, i requires 0 <= i => from + i) + BoardPlaces(Base(d))[..size]
  }

  lemma StubPlaced(s: State, d: Deal)
    requires CutFrom(s.board, s.deck, d)
    ensures var xs := StubPlaces(d, |s.board|);
            |xs| == |s.deck + s.board|
            && forall i | 0 <= i < |xs| :: (s.deck + s.board)[i] == d.deck[xs[i]]
  {
    var xs := StubPlaces(d, |s.board|);
    forall i | 0 <= i < |xs| ensures (s.deck + s.board)[i] == d.deck[xs[i]] {
      if i >= |s.deck| {
        assert xs[i] == BoardPlaces(Base(d))[i - |s.deck|];
      }
    }
  }

  lemma DistinctJoin(xs: seq<nat>, ys: seq<nat>, mid: nat)
    requires Distinct(xs) && Distinct(ys)
    requires forall i | 0 <= i < |xs| :: mid <= xs[i]
    requires forall i | 0 <= i < |ys| :: ys[i] < mid
    ensures Distinct(xs + ys)
  {
  }

  /** Undealt cards, board and hands are pairwise different. */
  lemma NoCardTwice(s: State, d: Deal)
    requires CardsFrom(s, d) && UniqueIds(s.players)
    ensures Distinct(AllCards(s))
  {
    StubPlaced(s, d);
    var xs := StubPlaces(d, |s.board|);
    assert s.players[..|s.players|] == s.players;
    var ys := PlaceHands(s.players, |s.players|, d);
    DistinctJoin(xs, ys, Base(d));
    var stub, hands := s.deck + s.board, SeatHands(s.players, s.holeCards);
    forall i | 0 <= i < |xs + ys| ensures (stub + hands)[i] == d.deck[(xs + ys)[i]] {
      if i >= |xs| {
        assert (xs + ys)[i] == ys[i - |xs|];
        assert (stub + hands)[i] == hands[i - |xs|];
      }
    }
    DistinctAt(d.deck, stub + hands, xs + ys);
  }
}

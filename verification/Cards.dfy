/** Playing cards and the duplicate check that every supplied deck goes through. */
module Cards {
  import opened Sequences
  import opened Wrappers

  datatype Suit = Clubs | Diamonds | Hearts | Spades

  type Rank = r: int | 2 <= r <= 14 witness 2

  datatype Card = Card(rank: Rank, suit: Suit)

  const DECK_SIZE := 52

  /** Walks the cards with a set of those seen; a repeated card is the only failure. */
  method ValidateDeck(cards: seq<Card>) returns (r: Result<seq<Card>, Card>)
    ensures r.Ok? <==> Distinct(cards)
    ensures r.Ok? ==> r.value == cards
    ensures r.Err? ==> exists i, j :: 0 <= i < j < |cards| && cards[i] == r.error == cards[j]
  {
    var seen: set<Card> := {};
    for k := 0 to |cards|
      invariant forall c :: c in seen <==> c in cards[..k]
      invariant Distinct(cards[..k])
    {
      if cards[k] in seen {
        var i :| 0 <= i < k && cards[..k][i] == cards[k];
        assert cards[i] == cards[k];
        return Err(cards[k]);
      }
      seen := seen + {cards[k]};
      assert cards[..k + 1] == cards[..k] + [cards[k]];
    }
    assert cards[..|cards|] == cards;
    return Ok(cards);
  }
}

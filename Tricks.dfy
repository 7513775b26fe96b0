/**
 * The trick: which cards may be played (suit-following) and who wins a
 * trick (highest card of the lead suit, unless a trump was played, in which
 * case the highest trump).
 */
module Tricks {
  import opened Wrappers
  import opened Seats
  import opened Cards
  import opened Hands

  /** One entry of the trick on the table: `{player, card}`. */
  datatype Play = Play(player: Seat, card: Card)

  /** isValidPlay: the first card of a trick is always legal; afterwards a player holding the lead suit must play it. */
  function IsValidPlay(card: Card, hand: seq<Card>, trick: seq<Play>): (ok: bool)
    ensures trick == [] ==> ok
    ensures trick != [] ==>
      (ok <==> card.suit == trick[0].card.suit || forall c :: c in hand ==> c.suit != trick[0].card.suit)
  {
    if trick == [] then true
    else
      var leadSuit := trick[0].card.suit;
      var leadSuitCards := OfSuit(hand, leadSuit);
      assert leadSuitCards != [] ==> leadSuitCards[0] in leadSuitCards;
      if |leadSuitCards| > 0 then card.suit == leadSuit else true
  }

  /** Whatever the trick, a player with at least one card has a legal card to play. */
  lemma SomeCardIsLegal(hand: seq<Card>, trick: seq<Play>)
    requires hand != []
    ensures exists c :: c in hand && IsValidPlay(c, hand, trick)
  {
    if trick != [] && exists c :: c in hand && c.suit == trick[0].card.suit {
      var c :| c in hand && c.suit == trick[0].card.suit;
      assert IsValidPlay(c, hand, trick);
    } else {
      assert IsValidPlay(hand[0], hand, trick);
    }
  }

  /** `hand.find(c => isValidPlay(c, hand))`: the first legal card of the hand, if any. */
  function FirstLegal(hand: seq<Card>, trick: seq<Play>): (r: Option<Card>)
    ensures r.Some? ==> r.value in hand && IsValidPlay(r.value, hand, trick)
    ensures r.Some? ==> exists i :: 0 <= i < |hand| && hand[i] == r.value && NoneLegalBefore(hand, i, hand, trick)
    ensures r.None? ==> forall c :: c in hand ==> !IsValidPlay(c, hand, trick)
  {
    FirstLegalFrom(hand, hand, trick)
  }

  /** No card of `cards` before position `i` is a legal play from `hand`. */
  predicate NoneLegalBefore(cards: seq<Card>, i: int, hand: seq<Card>, trick: seq<Play>)
    requires 0 <= i <= |cards|
  {
    forall j :: 0 <= j < i ==> !IsValidPlay(cards[j], hand, trick)
  }

  /** The search of `find` over the part `rest` of the hand still to be scanned. */
  function FirstLegalFrom(rest: seq<Card>, hand: seq<Card>, trick: seq<Play>): (r: Option<Card>)
    ensures r.Some? ==> r.value in rest && IsValidPlay(r.value, hand, trick)
    ensures r.Some? ==> exists i :: 0 <= i < |rest| && rest[i] == r.value && NoneLegalBefore(rest, i, hand, trick)
    ensures r.None? ==> forall c :: c in rest ==> !IsValidPlay(c, hand, trick)
  {
    if rest == [] then None
    else if IsValidPlay(rest[0], hand, trick) then
      assert NoneLegalBefore(rest, 0, hand, trick);
      Some(rest[0])
    else
      assert forall c :: c in rest ==> c == rest[0] || c in rest[1..];
      var r := FirstLegalFrom(rest[1..], hand, trick);
      assert r.Some? ==> exists i :: 0 <= i < |rest| && rest[i] == r.value && NoneLegalBefore(rest, i, hand, trick) by {
        if r.Some? {
          var i :| 0 <= i < |rest[1..]| && rest[1..][i] == r.value && NoneLegalBefore(rest[1..], i, hand, trick);
          assert rest[i + 1] == r.value;
          assert NoneLegalBefore(rest, i + 1, hand, trick) by {
            forall j | 0 <= j < i + 1 ensures !IsValidPlay(rest[j], hand, trick) {
              if j > 0 {
                assert rest[j] == rest[1..][j - 1];
              }
            }
          }
        }
      }
      r
  }

  /** Some play in the trick is of the trump suit. */
  predicate TrumpPlayed(trick: seq<Play>, trump: Option<Suit>)
  {
    trump.Some? && exists j :: 0 <= j < |trick| && trick[j].card.suit == trump.value
  }

  /** The suit that takes the trick: trump if any trump was played, else the lead suit. */
  function WinningSuit(trick: seq<Play>, trump: Option<Suit>): Suit
    requires trick != []
  {
    if TrumpPlayed(trick, trump) then trump.value else trick[0].card.suit
  }

  /**
   * Entry `k` wins the trick: it is of the winning suit, no card of that suit
   * in the trick has more power, and every earlier card of that suit has less
   * (on equal power the earlier card keeps the trick).
   */
  predicate WinsAt(trick: seq<Play>, trump: Option<Suit>, k: int)
  {
    && trick != []
    && 0 <= k < |trick|
    && trick[k].card.suit == WinningSuit(trick, trump)
    && (forall j :: 0 <= j < |trick| && trick[j].card.suit == trick[k].card.suit ==>
          trick[j].card.power <= trick[k].card.power)
    && (forall j :: 0 <= j < k && trick[j].card.suit == trick[k].card.suit ==>
          trick[j].card.power < trick[k].card.power)
  }

  /** The rule picks exactly one entry of the trick. */
  lemma WinnerIsUnique(trick: seq<Play>, trump: Option<Suit>, k1: int, k2: int)
    requires WinsAt(trick, trump, k1) && WinsAt(trick, trump, k2)
    ensures k1 == k2
  {
    assert trick[k1].card.suit == trick[k2].card.suit;
    assert trick[k1].card.power <= trick[k2].card.power && trick[k2].card.power <= trick[k1].card.power;
  }

  /**
   * getCurrentTrickWinner: start from the first play and let each later play
   * take over when it is a higher card of the incumbent's suit, or a trump
   * played over a non-trump.
   */
  method GetCurrentTrickWinner(trick: seq<Play>, trump: Option<Suit>) returns (winner: Play)
    requires trick != []
    ensures exists k :: WinsAt(trick, trump, k) && trick[k] == winner
    ensures winner in trick
    ensures winner.card.suit == trick[0].card.suit || trump == Some(winner.card.suit)
  {
    var leadSuit := trick[0].card.suit;
    winner := trick[0];
    ghost var k := 0;
    for i := 0 to |trick|
      invariant 0 <= k < |trick| && winner == trick[k] && (k < i || k == 0)
      invariant (trump.Some? && exists j :: 0 <= j < i && trick[j].card.suit == trump.value) ==>
        winner.card.suit == trump.value
      invariant !(trump.Some? && exists j :: 0 <= j < i && trick[j].card.suit == trump.value) ==>
        winner.card.suit == leadSuit
      invariant forall j :: 0 <= j < i && trick[j].card.suit == winner.card.suit ==>
        trick[j].card.power <= winner.card.power
      invariant forall j :: 0 <= j < k && trick[j].card.suit == winner.card.suit ==>
        trick[j].card.power < winner.card.power
    {
      var p := trick[i];
      if p.card.suit == winner.card.suit {
        if p.card.power > winner.card.power {
          winner := p;
          k := i;
        }
      } else if trump == Some(p.card.suit) {
        if trump != Some(winner.card.suit) {
          winner := p;
          k := i;
        } else if p.card.power > winner.card.power {
          winner := p;
          k := i;
        }
      }
    }
  }

  /** The cards of the trick, as a multiset. */
  function TrickCards(trick: seq<Play>): (m: multiset<Card>)
    ensures |m| == |trick|
  {
    if trick == [] then multiset{}
    else TrickCards(trick[..|trick| - 1]) + multiset{trick[|trick| - 1].card}
  }

  /** Putting one more card on the table adds exactly that card to the trick. */
  lemma TrickCardsAppend(trick: seq<Play>, p: Play)
    ensures TrickCards(trick + [p]) == TrickCards(trick) + multiset{p.card}
  {
    assert (trick + [p])[..|trick|] == trick;
  }
}

/**
 * Hands: the filters the engine applies to a hand (`hand.filter(...)`)
 * and `sortHand`, which orders a hand by suit (S, H, C, D) and, inside a
 * suit, by descending power.
 */
module Hands {
  import opened Cards

  /** `cards.filter(keep)`: the cards that pass, in their original order. */
  function Filter(cards: seq<Card>, keep: Card -> bool): (r: seq<Card>)
    ensures |r| <= |cards|
    ensures forall c :: c in r <==> c in cards && keep(c)
    ensures multiset(r) <= multiset(cards)
  {
    if cards == [] then []
    else
      assert cards == [cards[0]] + cards[1..];
      (if keep(cards[0]) then [cards[0]] else []) + Filter(cards[1..], keep)
  }

  lemma {:induction false} FilterAppend(a: seq<Card>, b: seq<Card>, keep: Card -> bool)
    ensures Filter(a + b, keep) == Filter(a, keep) + Filter(b, keep)
  {
    if a == [] {
      assert a + b == b;
    } else {
      assert (a + b)[0] == a[0] && (a + b)[1..] == a[1..] + b;
      FilterAppend(a[1..], b, keep);
      var head := if keep(a[0]) then [a[0]] else [];
      calc {
        Filter(a + b, keep);
        head + Filter(a[1..] + b, keep);
        head + (Filter(a[1..], keep) + Filter(b, keep));
        (head + Filter(a[1..], keep)) + Filter(b, keep);
      }
    }
  }

  /** `hand.filter(c => c.suit === s)` */
  function OfSuit(hand: seq<Card>, s: Suit): seq<Card>
  {
    Filter(hand, (c: Card) => c.suit == s)
  }

  /** `hand.filter(c => c.id !== id)`: what is left of a hand after a card is played. */
  function RemoveId(hand: seq<Card>, id: string): seq<Card>
  {
    Filter(hand, (c: Card) => c.id != id)
  }

  /**
   * Removing a card by identifier from a hand of well-formed cards that holds
   * it once takes away exactly that card.
   */
  lemma RemoveIdTakesOne(hand: seq<Card>, card: Card)
    requires WellFormed(card)
    requires forall c :: c in hand ==> WellFormed(c)
    requires multiset(hand)[card] == 1
    ensures multiset(RemoveId(hand, card.id)) == multiset(hand) - multiset{card}
  {
    RemoveIdDropsAll(hand, card);
  }

  lemma {:induction false} RemoveIdDropsAll(hand: seq<Card>, card: Card)
    requires WellFormed(card)
    requires forall c :: c in hand ==> WellFormed(c)
    ensures multiset(RemoveId(hand, card.id)) == multiset(hand)[card := 0]
  {
    if hand != [] {
      var h := hand[0];
      assert hand == [h] + hand[1..];
      RemoveIdDropsAll(hand[1..], card);
      if h.id == card.id {
        assert h in hand && WellFormed(h);
        assert CardId(h.rank, h.suit) == h.id == card.id == CardId(card.rank, card.suit);
        IdDeterminesCard(h.rank, h.suit, card.rank, card.suit);
        assert h == card;
      }
    }
  }

  /**
   * The comparator `sortHand` passes to `Array.prototype.sort`: negative when
   * `a` goes first. Cards of different suits follow the suit order S, H, C, D
   * and are never tied; inside a suit the higher power goes first, and only
   * equal powers tie.
   */
  function Compare(a: Card, b: Card): (c: int)
    ensures a.suit != b.suit ==> c != 0 && (c < 0 <==> SuitIndex(a.suit) < SuitIndex(b.suit))
    ensures a.suit == b.suit ==> (c < 0 <==> a.power > b.power) && (c == 0 <==> a.power == b.power)
    ensures c <= 0 <==> InOrder(a, b)
  {
    if a.suit != b.suit then SuitIndex(a.suit) - SuitIndex(b.suit) else b.power - a.power
  }

  /** `a` may come before `b` in a sorted hand: an earlier suit, or the same suit and no less power. */
  predicate InOrder(a: Card, b: Card)
  {
    if a.suit != b.suit then SuitIndex(a.suit) < SuitIndex(b.suit) else a.power >= b.power
  }

  /** Grouped by suit in the order S, H, C, D; inside a suit, strongest first. */
  predicate Sorted(hand: seq<Card>)
  {
    forall i, j {:trigger InOrder(hand[i], hand[j])} :: 0 <= i < j < |hand| ==> InOrder(hand[i], hand[j])
  }

  /** Filtering a sorted hand keeps it sorted. */
  lemma {:induction false} FilterSorted(hand: seq<Card>, keep: Card -> bool)
    requires Sorted(hand)
    ensures Sorted(Filter(hand, keep))
  {
    if hand != [] {
      var rest := Filter(hand[1..], keep);
      FilterSorted(hand[1..], keep);
      assert forall c :: c in rest ==> InOrder(hand[0], c) by {
        forall c | c in rest ensures InOrder(hand[0], c) {
          var k :| 0 <= k < |hand[1..]| && hand[1..][k] == c;
          assert hand[k + 1] == c;
        }
      }
      var r := Filter(hand, keep);
      forall i, j | 0 <= i < j < |r| ensures InOrder(r[i], r[j]) {
        if keep(hand[0]) && i == 0 {
          assert r[j] == rest[j - 1];
          assert rest[j - 1] in rest;
        }
      }
    }
  }

  /** In a sorted run of one suit the last card is the weakest. */
  lemma LastIsWeakest(cards: seq<Card>, s: Suit)
    requires Sorted(cards) && cards != []
    requires forall c :: c in cards ==> c.suit == s
    ensures forall c :: c in cards ==> cards[|cards| - 1].power <= c.power
  {
    forall c | c in cards ensures cards[|cards| - 1].power <= c.power {
      var k :| 0 <= k < |cards| && cards[k] == c;
      if k < |cards| - 1 {
        assert InOrder(cards[k], cards[|cards| - 1]);
      }
    }
  }

  /** In a sorted hand the cards of one suit come strongest first, so the last is the weakest. */
  lemma LastOfSuitIsWeakest(hand: seq<Card>, s: Suit)
    requires Sorted(hand) && OfSuit(hand, s) != []
    ensures var cs := OfSuit(hand, s);
      cs[|cs| - 1].suit == s && forall c :: c in cs ==> cs[|cs| - 1].power <= c.power
  {
    var cs := OfSuit(hand, s);
    FilterSorted(hand, (c: Card) => c.suit == s);
    assert cs[|cs| - 1] in cs;
    LastIsWeakest(cs, s);
  }

  /**
   * sortHand: sorts the hand in place with the suit-then-power comparator
   * (a stable insertion sort stands in for the engine's `Array.prototype.sort`).
   */
  method SortHand(hand: array<Card>)
    modifies hand
    ensures Sorted(hand[..])
    ensures multiset(hand[..]) == old(multiset(hand[..]))
  {
    for i := 0 to hand.Length
      invariant Sorted(hand[..i])
      invariant multiset(hand[..]) == old(multiset(hand[..]))
    {
      var j := i;
      while j > 0 && Compare(hand[j - 1], hand[j]) > 0
        invariant 0 <= j <= i
        invariant forall k, m :: 0 <= k < m <= i && k != j && m != j ==> InOrder(hand[k], hand[m])
        invariant forall m :: j < m <= i ==> InOrder(hand[j], hand[m])
        invariant multiset(hand[..]) == old(multiset(hand[..]))
      {
        Swap(hand, j - 1, j);
        j := j - 1;
      }
    }
  }

  /** Sorts a copy of `cards` the way the deal does: build the hand, then `sortHand` it. */
  method SortedCopy(cards: seq<Card>) returns (hand: seq<Card>)
    ensures Sorted(hand)
    ensures multiset(hand) == multiset(cards)
    ensures |hand| == |cards|
  {
    var a := new Card[|cards|](k requires 0 <= k < |cards| => cards[k]);
    assert a[..] == cards;
    SortHand(a);
    hand := a[..];
    assert |hand| == |multiset(hand)| == |multiset(cards)| == |cards|;
  }
}

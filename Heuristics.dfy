/**
 * Decisions of the computer-controlled seats: the bid estimate, the choice
 * of trump, and the choice of card to play.
 */
module Heuristics {
  import opened Wrappers
  import opened Seats
  import opened Cards
  import opened Hands
  import opened Auction
  import opened Tricks
  import opened Visibility

  /** Number of cards of suit `s` in the hand. */
  function Count(hand: seq<Card>, s: Suit): (n: nat)
    ensures n <= |hand|
  {
    if hand == [] then 0
    else Count(hand[..|hand| - 1], s) + (if hand[|hand| - 1].suit == s then 1 else 0)
  }

  /** The count of a suit is the length of the hand's filter by that suit. */
  lemma {:induction false} CountIsOfSuitLength(hand: seq<Card>, s: Suit)
    ensures Count(hand, s) == |OfSuit(hand, s)|
  {
    if hand != [] {
      var init, last := hand[..|hand| - 1], hand[|hand| - 1];
      assert hand == init + [last];
      CountIsOfSuitLength(init, s);
      FilterAppend(init, [last], (c: Card) => c.suit == s);
      assert [last][1..] == [];
    }
  }

  /** Every card of the hand is counted under exactly one suit. */
  lemma {:induction false} CountsCoverHand(hand: seq<Card>)
    ensures Count(hand, Spades) + Count(hand, Hearts) + Count(hand, Clubs) + Count(hand, Diamonds) == |hand|
  {
    if hand != [] {
      CountsCoverHand(hand[..|hand| - 1]);
    }
  }

  /** `suits` after `hand.forEach(c => suits[c.suit]++)`: the number of cards of each suit. */
  method SuitCounts(hand: seq<Card>) returns (counts: map<Suit, nat>)
    ensures forall s :: s in counts && counts[s] == Count(hand, s)
  {
    counts := map[Spades := 0, Hearts := 0, Clubs := 0, Diamonds := 0];
    forall s ensures s in counts && counts[s] == Count(hand[..0], s) {
      assert hand[..0] == [];
      match s
      case Spades =>
      case Hearts =>
      case Clubs =>
      case Diamonds =>
    }
    for k := 0 to |hand|
      invariant forall s :: s in counts && counts[s] == Count(hand[..k], s)
    {
      var c := hand[k];
      assert hand[..k + 1] == hand[..k] + [c];
      assert hand[..k + 1][..k] == hand[..k];
      counts := counts[c.suit := counts[c.suit] + 1];
    }
    assert hand[..|hand|] == hand;
  }

  /** The length of the longest suit in the hand. */
  function LongestSuit(hand: seq<Card>): (m: nat)
    ensures forall s :: Count(hand, s) <= m
    ensures exists s :: Count(hand, s) == m
    ensures m <= |hand|
  {
    var a, b, c, d := Count(hand, Spades), Count(hand, Hearts), Count(hand, Clubs), Count(hand, Diamonds);
    var ab := if a >= b then a else b;
    var cd := if c >= d then c else d;
    if ab >= cd then ab else cd
  }

  /** High-card points: Jack 1, Queen 2, King 3, Ace 4 (power minus 10 for power 11 and up). */
  function Hcp(hand: seq<Card>): (h: nat)
    ensures (forall c :: c in hand ==> c.power <= 14) ==> h <= 4 * |hand|
    ensures (forall c :: c in hand ==> c.power <= 10) ==> h == 0
  {
    if hand == [] then 0
    else
      var init := hand[..|hand| - 1];
      assert forall c :: c in init ==> c in hand;
      Hcp(init) + (if hand[|hand| - 1].power >= 11 then hand[|hand| - 1].power - 10 else 0)
  }

  /** The points of two parts of a hand add up: the order of the `reduce` does not matter for the sum. */
  lemma {:induction false} HcpAppend(a: seq<Card>, b: seq<Card>)
    ensures Hcp(a + b) == Hcp(a) + Hcp(b)
  {
    if b == [] {
      assert a + b == a;
    } else {
      var n := |b| - 1;
      HcpAppend(a, b[..n]);
      assert (a + b)[..|a + b| - 1] == a + b[..n];
    }
  }

  /** The number of tricks the hand is judged to be worth. */
  function Potential(maxSuitCount: nat, hcp: nat): (p: int)
    ensures 6 <= p <= 8 + (if maxSuitCount >= 3 then maxSuitCount - 2 else 0)
  {
    var potential := 6;
    var potential := if maxSuitCount >= 3 then potential + (maxSuitCount - 2) else potential;
    var potential := if hcp >= 6 then potential + 1 else potential;
    if hcp >= 9 then potential + 1 else potential
  }

  /**
   * The amount a computer seat announces (0 is a pass). It is always a pass or
   * a genuine raise, never above the seat's own estimate; over a partner it
   * is a pass or a raise of exactly one; over an opponent it never goes above
   * 9 on fewer than 10 high-card points.
   */
  function BidDecision(potential: int, hcp: nat, seat: Seat, currentHigh: Bid): (r: int)
    ensures r == 0 || r > currentHigh.amount
    ensures r != 0 ==> r <= potential
    ensures currentHigh.player == Some(Partner(seat)) ==> r == 0 || r == currentHigh.amount + 1
    ensures currentHigh.player != Some(Partner(seat)) && r > 9 ==> hcp >= 10
    ensures currentHigh.player != Some(Partner(seat)) && r != 0 ==> r == potential
    ensures currentHigh.amount >= 0 && currentHigh.player == Some(Partner(seat)) ==>
      (r != 0 <==> potential > currentHigh.amount + 1)
    ensures currentHigh.amount >= 0 && currentHigh.player != Some(Partner(seat)) ==>
      (r != 0 <==> potential > currentHigh.amount && (potential <= 9 || hcp >= 10))
  {
    var bidAmount :=
      if currentHigh.player == Some(Partner(seat)) then
        (if potential > currentHigh.amount + 1 then currentHigh.amount + 1 else 0)
      else
        var b := if potential > currentHigh.amount then potential else 0;
        if b > 9 && hcp < 10 then 0 else b;
    if bidAmount <= currentHigh.amount then 0 else bidAmount
  }

  /** aiBid up to the call of processBidTurn: count suits, find the longest, score high cards, decide. */
  method AiBidAmount(seat: Seat, hand: seq<Card>, currentHigh: Bid) returns (bidAmount: int)
    ensures bidAmount == BidDecision(Potential(LongestSuit(hand), Hcp(hand)), Hcp(hand), seat, currentHigh)
    ensures bidAmount == 0 || bidAmount > currentHigh.amount
  {
    var suits := SuitCounts(hand);
    var maxSuitCount := 0;
    for i := 0 to |Suits|
      invariant forall k :: 0 <= k < i ==> Count(hand, Suits[k]) <= maxSuitCount
      invariant maxSuitCount == 0 || exists k :: 0 <= k < i && Count(hand, Suits[k]) == maxSuitCount
    {
      var n := suits[Suits[i]];
      assert n == Count(hand, Suits[i]);
      if n > maxSuitCount {
        maxSuitCount := n;
      }
    }
    forall s ensures Count(hand, s) <= maxSuitCount {
      assert Suits[SuitIndex(s)] == s;
    }
    assert maxSuitCount == LongestSuit(hand);
    var hcp := Hcp(hand);
    bidAmount := BidDecision(Potential(maxSuitCount, hcp), hcp, seat, currentHigh);
  }

  /**
   * On a first-deal hand of five cards, over a well-formed high bid, a
   * computer seat either passes or bids between 7 and 11: never outside the
   * 7..13 range a bid may take.
   */
  lemma AiBidInRange(seat: Seat, hand: seq<Card>, currentHigh: Bid)
    requires |hand| <= 5
    requires currentHigh.amount >= 6
    ensures var r := BidDecision(Potential(LongestSuit(hand), Hcp(hand)), Hcp(hand), seat, currentHigh);
      r == 0 || 7 <= r <= 11
  {
    var m := LongestSuit(hand);
    assert m <= 5;
    var p := Potential(m, Hcp(hand));
    assert p <= 11;
  }

  /**
   * aiSelectTrump: the suit with the most cards; on a tie the first of
   * S, H, C, D wins.
   */
  method SelectTrumpSuit(hand: seq<Card>) returns (bestSuit: Suit)
    ensures forall s :: Count(hand, s) <= Count(hand, bestSuit)
    ensures forall k :: 0 <= k < SuitIndex(bestSuit) ==> Count(hand, Suits[k]) < Count(hand, bestSuit)
  {
    var suits := SuitCounts(hand);
    bestSuit := Spades;
    var max: int := -1;
    for i := 0 to |Suits|
      invariant i == 0 ==> max == -1 && bestSuit == Spades
      invariant i > 0 ==> max == Count(hand, bestSuit) && SuitIndex(bestSuit) < i
      invariant forall k :: 0 <= k < i ==> Count(hand, Suits[k]) <= max
      invariant forall k :: 0 <= k < SuitIndex(bestSuit) && k < i ==> Count(hand, Suits[k]) < max
    {
      var s := Suits[i];
      assert suits[s] == Count(hand, s);
      if suits[s] > max {
        max := suits[s];
        bestSuit := s;
      }
    }
    forall s ensures Count(hand, s) <= Count(hand, bestSuit) {
      assert Suits[SuitIndex(s)] == s;
    }
  }

  /** The seat can tell which suit is trump: it has been revealed, or the seat chose it. */
  predicate KnowsTrump(seat: Seat, revealed: bool, bidWinner: Option<Bid>): (k: bool)
    ensures k && !revealed ==> bidWinner.Some? && bidWinner.value.player == Some(seat)
    ensures revealed ==> k
    ensures bidWinner.Some? && bidWinner.value.player == Some(seat) ==> k
  {
    revealed || (bidWinner.Some? && bidWinner.value.player == Some(seat))
  }

  /** Once a trump is chosen, a computer seat knows it exactly when the trump indicator would show that seat the suit. */
  lemma KnowsTrumpIsVisible(seat: Seat, trump: Option<Suit>, revealed: bool, bidWinner: Option<Bid>)
    requires trump.Some?
    ensures KnowsTrump(seat, revealed, bidWinner) <==> ShowsSuit(VisibleTrump(trump, revealed, bidWinner, seat))
  {
  }

  /** `hand.filter(c => c.suit === trumpSuit)`: empty while no trump is chosen. */
  function Trumps(hand: seq<Card>, trump: Option<Suit>): (t: seq<Card>)
    ensures forall c :: c in t <==> trump.Some? && c in hand && c.suit == trump.value
    ensures |t| <= |hand|
  {
    if trump.Some? then OfSuit(hand, trump.value) else []
  }

  /** `c` is in `cards` and no card of `cards` has less power. */
  predicate Weakest(c: Card, cards: seq<Card>)
  {
    c in cards && forall x :: x in cards ==> c.power <= x.power
  }

  /** `c` has more power than every lead-suit card on the table. */
  predicate Beats(c: Card, table: seq<Play>, lead: Suit)
  {
    forall j :: 0 <= j < |table| && table[j].card.suit == lead ==> c.power > table[j].card.power
  }

  /** The partner's play is the one currently taking the trick. */
  predicate PartnerWinning(seat: Seat, table: seq<Play>, trump: Option<Suit>)
  {
    exists k :: 0 <= k < |table| && WinsAt(table, trump, k) && table[k].player == Partner(seat)
  }

  /** `Math.max` of the powers of the lead-suit cards on the table. */
  function MaxLeadPower(table: seq<Play>, lead: Suit): (m: int)
    requires exists j :: 0 <= j < |table| && table[j].card.suit == lead
    ensures forall j :: 0 <= j < |table| && table[j].card.suit == lead ==> table[j].card.power <= m
    ensures exists j :: 0 <= j < |table| && table[j].card.suit == lead && table[j].card.power == m
  {
    var n := |table| - 1;
    var prefix := table[..n];
    var last := table[n].card;
    if exists j :: 0 <= j < n && prefix[j].card.suit == lead then
      var m := MaxLeadPower(prefix, lead);
      if last.suit == lead && last.power > m then last.power else m
    else
      last.power
  }

  /** The weakest card of a suit in a sorted hand is the last one, and it is in the hand. */
  lemma LastOfSuit(hand: seq<Card>, s: Suit)
    requires Sorted(hand) && OfSuit(hand, s) != []
    ensures var cs := OfSuit(hand, s); Weakest(cs[|cs| - 1], cs) && cs[|cs| - 1] in hand
  {
    LastOfSuitIsWeakest(hand, s);
  }

  /**
   * aiTurn, leading: the weakest trump when the seat knows trump and holds at
   * least four trumps, else the first card of the hand.
   */
  method LeadChoice(seat: Seat, hand: seq<Card>, trump: Option<Suit>, revealed: bool, bidWinner: Option<Bid>)
    returns (card: Card)
    requires hand != []
    ensures card in hand
    ensures KnowsTrump(seat, revealed, bidWinner) && |Trumps(hand, trump)| >= 4 ==>
      trump == Some(card.suit) && (Sorted(hand) ==> Weakest(card, Trumps(hand, trump)))
    ensures !(KnowsTrump(seat, revealed, bidWinner) && |Trumps(hand, trump)| >= 4) ==> card == hand[0]
  {
    var trumps := Trumps(hand, trump);
    var knowsTrump := revealed || (bidWinner.Some? && bidWinner.value.player == Some(seat));
    if knowsTrump && |trumps| >= 4 {
      card := trumps[|trumps| - 1];
      assert card in trumps;
      if Sorted(hand) {
        LastOfSuit(hand, trump.value);
      }
    } else {
      card := hand[0];
    }
  }

  /**
   * aiTurn, following with cards of the lead suit: the weakest of them when
   * the partner is taking the trick; otherwise the weakest one that beats
   * every lead-suit card on the table, or, when none does, the weakest.
   */
  method FollowChoice(seat: Seat, hand: seq<Card>, table: seq<Play>, trump: Option<Suit>) returns (card: Card)
    requires table != [] && OfSuit(hand, table[0].card.suit) != []
    ensures card in OfSuit(hand, table[0].card.suit)
    ensures FollowPick(seat, hand, table, trump, card)
  {
    var leadSuit := table[0].card.suit;
    var suitCards := OfSuit(hand, leadSuit);
    assert suitCards[|suitCards| - 1] in suitCards;
    if Sorted(hand) {
      LastOfSuit(hand, leadSuit);
    }
    var currentWinner := GetCurrentTrickWinner(table, trump);
    var partnerWinning := currentWinner.player == Partner(seat);
    assert partnerWinning <==> PartnerWinning(seat, table, trump) by {
      var k :| WinsAt(table, trump, k) && table[k] == currentWinner;
      forall k' | WinsAt(table, trump, k') ensures k' == k {
        WinnerIsUnique(table, trump, k, k');
      }
    }
    if partnerWinning {
      card := suitCards[|suitCards| - 1];
    } else {
      var tableMax := MaxLeadPower(table, leadSuit);
      var winners := Filter(suitCards, (c: Card) => c.power > tableMax);
      assert forall c :: c in winners <==> c in suitCards && Beats(c, table, leadSuit);
      if |winners| > 0 {
        card := winners[|winners| - 1];
        assert card in winners;
        if Sorted(hand) {
          FilterSorted(hand, (c: Card) => c.suit == leadSuit);
          FilterSorted(suitCards, (c: Card) => c.power > tableMax);
          LastIsWeakest(winners, leadSuit);
        }
      } else {
        card := suitCards[|suitCards| - 1];
      }
    }
  }

  /**
   * The pick of a seat holding the lead suit, in a sorted hand: the weakest
   * lead-suit card when the partner is taking the trick; otherwise the weakest
   * lead-suit card that beats every lead-suit card on the table, or the
   * weakest lead-suit card when none does.
   */
  ghost predicate FollowPick(seat: Seat, hand: seq<Card>, table: seq<Play>, trump: Option<Suit>, card: Card)
    requires table != []
  {
    var lead := table[0].card.suit;
    && (Sorted(hand) && PartnerWinning(seat, table, trump) ==> Weakest(card, OfSuit(hand, lead)))
    && (Sorted(hand) && !PartnerWinning(seat, table, trump) ==>
          if exists c :: c in OfSuit(hand, lead) && Beats(c, table, lead) then
            Beats(card, table, lead) && forall c :: c in OfSuit(hand, lead) && Beats(c, table, lead) ==> card.power <= c.power
          else
            Weakest(card, OfSuit(hand, lead)))
  }

  /**
   * The card aiTurn's rules pick: on an empty table the lead rule; holding the
   * lead suit a card of it, chosen by `FollowPick`; void in the lead suit the weakest trump if one is
   * held, else the last card of the hand.
   */
  ghost predicate AiChoice(seat: Seat, hand: seq<Card>, table: seq<Play>, trump: Option<Suit>, revealed: bool,
                           bidWinner: Option<Bid>, card: Card)
    requires hand != []
  {
    && (table == [] && KnowsTrump(seat, revealed, bidWinner) && |Trumps(hand, trump)| >= 4 ==>
          trump == Some(card.suit) && (Sorted(hand) ==> Weakest(card, Trumps(hand, trump))))
    && (table == [] && !(KnowsTrump(seat, revealed, bidWinner) && |Trumps(hand, trump)| >= 4) ==>
          card == hand[0])
    && (table != [] && OfSuit(hand, table[0].card.suit) != [] ==>
          card.suit == table[0].card.suit && FollowPick(seat, hand, table, trump, card))
    && (table != [] && OfSuit(hand, table[0].card.suit) == [] && Trumps(hand, trump) != [] ==>
          trump == Some(card.suit) && (Sorted(hand) ==> Weakest(card, Trumps(hand, trump))))
    && (table != [] && OfSuit(hand, table[0].card.suit) == [] && Trumps(hand, trump) == [] ==>
          card == hand[|hand| - 1])
  }

  /**
   * aiTurn's choice before the legality fallback: `LeadChoice` on an empty
   * table, `FollowChoice` with cards of the lead suit, and when void in the
   * lead suit the weakest trump, else the last (weakest) card. The choice is
   * always a legal card of the hand.
   */
  method ProposeCard(seat: Seat, hand: seq<Card>, table: seq<Play>, trump: Option<Suit>, revealed: bool, bidWinner: Option<Bid>)
    returns (card: Card)
    requires hand != []
    ensures card in hand
    ensures IsValidPlay(card, hand, table)
    ensures AiChoice(seat, hand, table, trump, revealed, bidWinner, card)
  {
    if table == [] {
      card := LeadChoice(seat, hand, trump, revealed, bidWinner);
    } else {
      var leadSuit := table[0].card.suit;
      var suitCards := OfSuit(hand, leadSuit);
      if |suitCards| > 0 {
        card := FollowChoice(seat, hand, table, trump);
        assert card.suit == leadSuit;
      } else {
        card := DiscardChoice(hand, trump);
        assert forall c :: c in hand ==> c.suit != leadSuit;
      }
    }
  }

  /**
   * aiTurn, unable to follow suit: the weakest trump if the seat holds one,
   * else the last card of the hand.
   */
  method DiscardChoice(hand: seq<Card>, trump: Option<Suit>) returns (card: Card)
    requires hand != []
    ensures card in hand
    ensures Trumps(hand, trump) != [] ==> trump == Some(card.suit) && (Sorted(hand) ==> Weakest(card, Trumps(hand, trump)))
    ensures Trumps(hand, trump) == [] ==> card == hand[|hand| - 1]
  {
    var trumps := Trumps(hand, trump);
    if |trumps| > 0 {
      card := trumps[|trumps| - 1];
      assert card in trumps;
      if Sorted(hand) {
        LastOfSuit(hand, trump.value);
      }
    } else {
      card := hand[|hand| - 1];
    }
  }

  /**
   * The defensive fallback of aiTurn: a legal proposal is kept; otherwise the
   * first legal card of the hand is played (one always exists), with the first
   * card as the last resort.
   */
  function Fallback(proposed: Card, hand: seq<Card>, table: seq<Play>): (card: Card)
    requires hand != []
    ensures IsValidPlay(proposed, hand, table) ==> card == proposed
    ensures !IsValidPlay(proposed, hand, table) ==> card in hand && IsValidPlay(card, hand, table)
    ensures !IsValidPlay(proposed, hand, table) ==> FirstLegal(hand, table) == Some(card)
  {
    if IsValidPlay(proposed, hand, table) then proposed
    else
      SomeCardIsLegal(hand, table);
      var first, lastResort := FirstLegal(hand, table), hand[0];
      if first.Some? then first.value else lastResort
  }
}

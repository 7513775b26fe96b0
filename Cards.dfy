/**
 * Cards and the deck: the four suits, the thirteen ranks with their
 * trick-taking power, the card record, deck construction and the
 * Fisher-Yates shuffle.
 */
module Cards {

  /** Suits in the order the deck is built and hands are grouped: S, H, C, D. */
  datatype Suit = Spades | Hearts | Clubs | Diamonds

  /** Ranks in the order the deck is built: Ace first, Two last. */
  datatype Rank = Ace | King | Queen | Jack | Ten | Nine | Eight | Seven | Six | Five | Four | Three | Two

  const Suits: seq<Suit> := [Spades, Hearts, Clubs, Diamonds]
  const Ranks: seq<Rank> := [Ace, King, Queen, Jack, Ten, Nine, Eight, Seven, Six, Five, Four, Three, Two]

  /** The rank-to-power table: Ace high (14) down to Two (2). */
  function Power(r: Rank): (p: int)
    ensures 2 <= p <= 14
    ensures p == 14 - RankIndex(r)
  {
    match r
    case Ace => 14
    case King => 13
    case Queen => 12
    case Jack => 11
    case Ten => 10
    case Nine => 9
    case Eight => 8
    case Seven => 7
    case Six => 6
    case Five => 5
    case Four => 4
    case Three => 3
    case Two => 2
  }

  /** Position of a suit in `Suits` (the source's `SUITS.indexOf`). */
  function SuitIndex(s: Suit): (k: nat)
    ensures k < |Suits| && Suits[k] == s
  {
    match s
    case Spades => 0
    case Hearts => 1
    case Clubs => 2
    case Diamonds => 3
  }

  /** Position of a rank in `Ranks`. */
  function RankIndex(r: Rank): (k: nat)
    ensures k < |Ranks| && Ranks[k] == r
  {
    match r
    case Ace => 0
    case King => 1
    case Queen => 2
    case Jack => 3
    case Ten => 4
    case Nine => 5
    case Eight => 6
    case Seven => 7
    case Six => 8
    case Five => 9
    case Four => 10
    case Three => 11
    case Two => 12
  }

  function SuitLetter(s: Suit): char
  {
    match s
    case Spades => 'S'
    case Hearts => 'H'
    case Clubs => 'C'
    case Diamonds => 'D'
  }

  function RankText(r: Rank): string
  {
    match r
    case Ace => "A"
    case King => "K"
    case Queen => "Q"
    case Jack => "J"
    case Ten => "10"
    case Nine => "9"
    case Eight => "8"
    case Seven => "7"
    case Six => "6"
    case Five => "5"
    case Four => "4"
    case Three => "3"
    case Two => "2"
  }

  /** A card's identifier: its rank text followed by its suit letter ("10H", "AS"). */
  function CardId(r: Rank, s: Suit): string
  {
    RankText(r) + [SuitLetter(s)]
  }

  /** A card as the source builds it: suit, rank, the rank's power and the identifier. */
  datatype Card = Card(suit: Suit, rank: Rank, power: int, id: string)

  function MakeCard(s: Suit, r: Rank): Card
  {
    Card(s, r, Power(r), CardId(r, s))
  }

  /** A card whose power and identifier are the ones derived from its suit and rank. */
  predicate WellFormed(c: Card)
  {
    c == MakeCard(c.suit, c.rank)
  }

  /** Identifiers are unique: the identifier alone determines suit and rank. */
  lemma IdDeterminesCard(r1: Rank, s1: Suit, r2: Rank, s2: Suit)
    requires CardId(r1, s1) == CardId(r2, s2)
    ensures r1 == r2 && s1 == s2
  {
    var id := CardId(r1, s1);
    assert id[|id| - 1] == SuitLetter(s1) && id[|id| - 1] == SuitLetter(s2);
    assert RankText(r1) == id[..|id| - 1] == RankText(r2);
  }

  /** The card at position `i` of a freshly built deck: suits outer, ranks inner. */
  function DeckCard(i: int): Card
    requires 0 <= i < 52
  {
    MakeCard(Suits[i / 13], Ranks[i % 13])
  }

  /** The deck `createDeck` builds, stated position by position. */
  function FullDeck(): seq<Card>
  {
    seq(52, i requires 0 <= i < 52 => DeckCard(i))
  }

  /**
   * createDeck: for every suit, for every rank, push the card. The result is
   * the 52-card deck, card by card.
   */
  method CreateDeck() returns (deck: seq<Card>)
    ensures deck == FullDeck()
  {
    deck := [];
    for si := 0 to |Suits|
      invariant |deck| == 13 * si
      invariant forall k :: 0 <= k < |deck| ==> deck[k] == DeckCard(k)
    {
      for ri := 0 to |Ranks|
        invariant |deck| == 13 * si + ri
        invariant forall k :: 0 <= k < |deck| ==> deck[k] == DeckCard(k)
      {
        var suit, rank := Suits[si], Ranks[ri];
        var card := Card(suit, rank, Power(rank), CardId(rank, suit));
        DeckCardAt(si, ri);
        PushNextCard(deck, card);
        deck := deck + [card];
      }
    }
  }

  /** Pushing the card of the next position extends a correct prefix of the deck. */
  lemma PushNextCard(deck: seq<Card>, card: Card)
    requires |deck| < 52 && card == DeckCard(|deck|)
    requires forall k :: 0 <= k < |deck| ==> deck[k] == DeckCard(k)
    ensures forall k :: 0 <= k < |deck| + 1 ==> (deck + [card])[k] == DeckCard(k)
  {
  }

  /** Suit `si` and rank `ri` of the build order sit at position 13 * si + ri. */
  lemma DeckCardAt(si: int, ri: int)
    requires 0 <= si < 4 && 0 <= ri < 13
    ensures DeckCard(13 * si + ri) == MakeCard(Suits[si], Ranks[ri])
  {
    assert (13 * si + ri) / 13 == si && (13 * si + ri) % 13 == ri;
  }

  /** Where a given suit and rank sit in the full deck. */
  lemma DeckPosition(s: Suit, r: Rank)
    ensures 0 <= 13 * SuitIndex(s) + RankIndex(r) < 52
    ensures FullDeck()[13 * SuitIndex(s) + RankIndex(r)] == MakeCard(s, r)
  {
    DeckCardAt(SuitIndex(s), RankIndex(r));
  }

  /**
   * The deck has 52 cards, every card is well formed with power 2..14,
   * every suit/rank pair occurs, and no two cards share an identifier.
   */
  lemma FullDeckFacts()
    ensures |FullDeck()| == 52
    ensures forall i :: 0 <= i < 52 ==> WellFormed(FullDeck()[i]) && 2 <= FullDeck()[i].power <= 14
    ensures forall s, r :: MakeCard(s, r) in FullDeck()
    ensures forall i, j :: 0 <= i < j < 52 ==> FullDeck()[i].id != FullDeck()[j].id
  {
    var d := FullDeck();
    forall s, r ensures MakeCard(s, r) in d {
      DeckPosition(s, r);
    }
    forall i, j | 0 <= i < j < 52 ensures d[i].id != d[j].id {
      if d[i].id == d[j].id {
        DeckCardInjective(i, j);
      }
    }
  }

  /** Two positions of the full deck that hold cards with the same identifier are the same position. */
  lemma DeckCardInjective(i: int, j: int)
    requires 0 <= i < 52 && 0 <= j < 52
    requires DeckCard(i).id == DeckCard(j).id
    ensures i == j
  {
    IdDeterminesCard(DeckCard(i).rank, DeckCard(i).suit, DeckCard(j).rank, DeckCard(j).suit);
    var si, ri, sj, rj := i / 13, i % 13, j / 13, j % 13;
    assert SuitIndex(Suits[si]) == si && SuitIndex(Suits[sj]) == sj;
    assert RankIndex(Ranks[ri]) == ri && RankIndex(Ranks[rj]) == rj;
    assert si == sj && ri == rj;
  }

  /** No card occurs twice in the full deck, and all of its cards are well formed. */
  lemma FullDeckMultiplicity(c: Card)
    ensures multiset(FullDeck())[c] <= 1
    ensures c in multiset(FullDeck()) ==> WellFormed(c)
  {
    FullDeckFacts();
    DistinctCountsOnce(FullDeck(), c);
  }

  lemma {:induction false} DistinctCountsOnce(s: seq<Card>, c: Card)
    requires forall i, j :: 0 <= i < j < |s| ==> s[i].id != s[j].id
    ensures multiset(s)[c] <= 1
  {
    if s != [] {
      DistinctCountsOnce(s[1..], c);
      assert s == [s[0]] + s[1..];
      if s[0] == c {
        assert forall k :: 0 <= k < |s[1..]| ==> s[1..][k] != c by {
          forall k | 0 <= k < |s[1..]| ensures s[1..][k] != c {
            assert s[1..][k] == s[k + 1];
          }
        }
        assert c !in s[1..];
      }
    }
  }

  /** `Math.floor(r * n)` for a draw `r` in [0, 1): a position in 0..n-1. */
  function DrawIndex(r: real, n: int): (j: int)
    requires 0.0 <= r < 1.0 && n > 0
    ensures 0 <= j < n
  {
    assert r * n as real < n as real;
    (r * n as real).Floor
  }

  /**
   * shuffleDeck: Fisher-Yates on a copy of the deck. `draws[i]` is the value
   * `Math.random()` returned when position `i` was swapped (draws[0] is not used).
   * The result is a permutation of the input.
   */
  method ShuffleDeck(deck: seq<Card>, draws: seq<real>) returns (shuffled: seq<Card>)
    requires |draws| == |deck|
    requires forall i :: 0 <= i < |draws| ==> 0.0 <= draws[i] < 1.0
    ensures multiset(shuffled) == multiset(deck)
    ensures |shuffled| == |deck|
  {
    var a := new Card[|deck|](k requires 0 <= k < |deck| => deck[k]);
    assert a[..] == deck;
    var i := a.Length - 1;
    while i > 0
      invariant -1 <= i < a.Length
      invariant multiset(a[..]) == multiset(deck)
    {
      var j := DrawIndex(draws[i], i + 1);
      Swap(a, i, j);
      i := i - 1;
    }
    shuffled := a[..];
  }

  /** Exchanges two entries of an array; the contents stay a permutation. */
  method Swap(a: array<Card>, i: int, j: int)
    requires 0 <= i < a.Length && 0 <= j < a.Length
    modifies a
    ensures a[..] == old(a[..])[i := old(a[j])][j := old(a[i])]
    ensures a[i] == old(a[j]) && a[j] == old(a[i])
    ensures forall k :: 0 <= k < a.Length && k != i && k != j ==> a[k] == old(a[k])
    ensures multiset(a[..]) == old(multiset(a[..]))
  {
    a[i], a[j] := a[j], a[i];
  }
}

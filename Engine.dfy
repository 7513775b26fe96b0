/**
 * The game engine: the state the `BridgeGame` component keeps, and the
 * handlers that move a hand from the deal through the auction, the choice
 * of trump, the second deal and the thirteen tricks to the round's scoring.
 *
 * The state-setting calls of the component are modelled as field updates
 * that later steps see. Each delayed continuation (`setTimeout`) is a
 * separate method that the caller invokes; the engine's `Valid()` invariant
 * holds between them.
 */
module Engine {
  import opened Wrappers
  import opened Seats
  import opened Cards
  import opened Hands
  import opened Auction
  import opened Tricks
  import opened Scoring
  import opened Heuristics

  /** `gameState`, restricted to the values the engine sets. */
  datatype Phase = Lobby | Bidding | TrumpSelect | Playing | RoundEnd

  /** The cards held by the four seats, together. */
  function HandsBag(hands: seq<seq<Card>>): multiset<Card>
    requires |hands| == 4
  {
    multiset(hands[0]) + multiset(hands[1]) + multiset(hands[2]) + multiset(hands[3])
  }

  /** Replacing one hand changes the seats' cards by exactly the difference. */
  lemma HandsBagUpdate(hands: seq<seq<Card>>, p: int, h: seq<Card>)
    requires |hands| == 4 && 0 <= p < 4
    ensures HandsBag(hands[p := h]) + multiset(hands[p]) == HandsBag(hands) + multiset(h)
  {
  }

  /** Taking one card out of one hand takes exactly that card out of the seats' cards. */
  lemma HandsBagTakeOne(hands: seq<seq<Card>>, p: int, card: Card)
    requires |hands| == 4 && 0 <= p < 4
    requires multiset(RemoveId(hands[p], card.id)) == multiset(hands[p]) - multiset{card}
    requires card in hands[p]
    ensures HandsBag(hands[p := RemoveId(hands[p], card.id)]) + multiset{card} == HandsBag(hands)
  {
    var newHand := RemoveId(hands[p], card.id);
    HandsBagUpdate(hands, p, newHand);
    assert multiset(hands[p]) == multiset(newHand) + multiset{card};
  }

  /** Dealing positions 5p..5p+4 to seat p leaves exactly positions 20..51 undealt. */
  lemma FirstDealSplit(deck: seq<Card>, hands: seq<seq<Card>>)
    requires |deck| == 52 && |hands| == 4
    requires forall p :: 0 <= p < 4 ==> multiset(hands[p]) == multiset(deck[5 * p .. 5 * p + 5])
    ensures HandsBag(hands) + multiset(deck[20..]) == multiset(deck)
  {
    assert deck == deck[0..5] + deck[5..10] + deck[10..15] + deck[15..20] + deck[20..];
    assert multiset(hands[0]) == multiset(deck[0..5]);
    assert multiset(hands[1]) == multiset(deck[5..10]);
    assert multiset(hands[2]) == multiset(deck[10..15]);
    assert multiset(hands[3]) == multiset(deck[15..20]);
  }

  /** Adding positions 20+8p..27+8p to seat p hands out exactly the undealt cards. */
  lemma SecondDealSplit(deck: seq<Card>, before: seq<seq<Card>>, after: seq<seq<Card>>)
    requires |deck| == 52 && |before| == 4 && |after| == 4
    requires forall p :: 0 <= p < 4 ==>
      multiset(after[p]) == multiset(before[p]) + multiset(deck[20 + 8 * p .. 28 + 8 * p])
    ensures HandsBag(after) == HandsBag(before) + multiset(deck[20..])
  {
    assert deck[20..] == deck[20..28] + deck[28..36] + deck[36..44] + deck[44..52];
    assert multiset(after[0]) == multiset(before[0]) + multiset(deck[20..28]);
    assert multiset(after[1]) == multiset(before[1]) + multiset(deck[28..36]);
    assert multiset(after[2]) == multiset(before[2]) + multiset(deck[36..44]);
    assert multiset(after[3]) == multiset(before[3]) + multiset(deck[44..52]);
  }

  /**
   * While the seats' cards are part of a full deck, every card in a hand is
   * well formed and held once.
   */
  lemma HandCardFacts(hands: seq<seq<Card>>, others: multiset<Card>, deck: seq<Card>, p: int)
    requires |hands| == 4 && 0 <= p < 4
    requires HandsBag(hands) + others == multiset(deck)
    requires multiset(deck) == multiset(FullDeck())
    ensures forall c :: c in hands[p] ==> WellFormed(c) && multiset(hands[p])[c] == 1
  {
    assert multiset(hands[p]) <= HandsBag(hands);
    forall c | c in hands[p] ensures WellFormed(c) && multiset(hands[p])[c] == 1 {
      FullDeckMultiplicity(c);
      assert multiset(hands[p])[c] <= multiset(deck)[c];
    }
  }

  /**
   * The first deal of `startGame`: seat p receives deck positions 5p..5p+4,
   * sorted. The four hands hold exactly the first twenty cards.
   */
  method FirstDeal(deck: seq<Card>) returns (hands: seq<seq<Card>>)
    requires |deck| == 52
    ensures |hands| == 4
    ensures forall p :: 0 <= p < 4 ==>
      multiset(hands[p]) == multiset(deck[5 * p .. 5 * p + 5]) && |hands[p]| == 5 && Sorted(hands[p])
    ensures HandsBag(hands) + multiset(deck[20..]) == multiset(deck)
  {
    hands := [[], [], [], []];
    for i := 0 to 4
      invariant |hands| == 4
      invariant forall k :: 0 <= k < i ==>
        multiset(hands[k]) == multiset(deck[5 * k .. 5 * k + 5]) && |hands[k]| == 5 && Sorted(hands[k])
    {
      var h := SortedCopy(deck[i * 5 .. (i + 1) * 5]);
      hands := hands[i := h];
    }
    FirstDealSplit(deck, hands);
  }

  /** Seat p's hand is its old hand plus deck positions 20+8p..27+8p, sorted. */
  ghost predicate SecondDealt(deck: seq<Card>, before: seq<seq<Card>>, after: seq<seq<Card>>)
  {
    && |deck| == 52 && |before| == 4 && |after| == 4
    && forall p :: 0 <= p < 4 ==>
         && multiset(after[p]) == multiset(before[p]) + multiset(deck[20 + 8 * p .. 28 + 8 * p])
         && |after[p]| == |before[p]| + 8
         && Sorted(after[p])
  }

  /**
   * The deal of `dealSecondPhase`: seat p adds deck positions 20+8p..27+8p
   * to its hand and re-sorts. The hands gain exactly the undealt cards.
   */
  method SecondDeal(deck: seq<Card>, hands: seq<seq<Card>>) returns (newHands: seq<seq<Card>>)
    requires |deck| == 52 && |hands| == 4
    ensures SecondDealt(deck, hands, newHands)
  {
    newHands := hands;
    for i := 0 to 4
      invariant |newHands| == 4
      invariant forall k :: 0 <= k < i ==>
        && multiset(newHands[k]) == multiset(hands[k]) + multiset(deck[20 + 8 * k .. 28 + 8 * k])
        && |newHands[k]| == |hands[k]| + 8
        && Sorted(newHands[k])
      invariant forall k :: i <= k < 4 ==> newHands[k] == hands[k]
    {
      var h := SortedCopy(newHands[i] + deck[20 + i * 8 .. 20 + (i + 1) * 8]);
      newHands := newHands[i := h];
    }
  }

  /**
   * The deck work of `startGame`: a new deck, shuffled with `draws`, and
   * the first deal from it.
   */
  method ShuffleAndDeal(draws: seq<real>) returns (deck: seq<Card>, hands: seq<seq<Card>>)
    requires Draws(draws)
    ensures FullDeckPermutation(deck) && |hands| == 4
    ensures forall p :: 0 <= p < 4 ==>
      multiset(hands[p]) == multiset(deck[5 * p .. 5 * p + 5]) && |hands[p]| == 5 && Sorted(hands[p])
  {
    var created := CreateDeck();
    FullDeckFacts();
    deck := ShuffleDeck(created, draws);
    hands := FirstDeal(deck);
  }

  /** Math.random() values in [0, 1), one per deck position, for one shuffle. */
  predicate Draws(draws: seq<real>)
  {
    |draws| == 52 && forall i :: 0 <= i < |draws| ==> 0.0 <= draws[i] < 1.0
  }

  /** Four hands, each sorted. */
  ghost predicate HandsSorted(hands: seq<seq<Card>>)
  {
    |hands| == 4 && forall p :: 0 <= p < 4 ==> Sorted(hands[p])
  }

  /** Four cards taken for every trick counted, and no negative count. */
  ghost predicate TricksCounted(taken: multiset<Card>, teamTricks: Tally)
  {
    teamTricks.ns >= 0 && teamTricks.ew >= 0 && |taken| == 4 * (teamTricks.ns + teamTricks.ew)
  }

  /** Every card of the deck is in exactly one place: a hand, the table, a taken trick, or the undealt stock. */
  ghost predicate CardsAccounted(deck: seq<Card>, hands: seq<seq<Card>>, table: seq<Play>, taken: multiset<Card>, stock: multiset<Card>)
  {
    |hands| == 4 && HandsBag(hands) + TrickCards(table) + taken + stock == multiset(deck)
  }

  /** A deck that is a permutation of the 52 cards. */
  ghost predicate FullDeckPermutation(deck: seq<Card>)
  {
    |deck| == 52 && multiset(deck) == multiset(FullDeck())
  }

  /**
   * What each phase implies. In the lobby nothing is dealt. After a deal the
   * deck is a full permutation; until the second deal the stock is deck
   * positions 20..51 and no card has been played; after it the stock is
   * empty. The auction has no winner and no trump while it runs; past it the
   * winner holds the high bid; once play starts there is a trump.
   */
  ghost predicate PhaseRules(phase: Phase, deck: seq<Card>, hands: seq<seq<Card>>, table: seq<Play>, taken: multiset<Card>,
                             stock: multiset<Card>, bidWinner: Option<Bid>, trumpSuit: Option<Suit>, high: Bid)
  {
    && (phase == Lobby ==>
          && deck == [] && table == [] && taken == multiset{}
          && forall p :: 0 <= p < |hands| ==> hands[p] == [])
    && (phase != Lobby ==> FullDeckPermutation(deck))
    && (phase == Bidding || phase == TrumpSelect ==>
          |deck| == 52 && stock == multiset(deck[20..]) && table == [] && taken == multiset{})
    && (phase != Bidding && phase != TrumpSelect ==> stock == multiset{})
    && (phase == Bidding ==> bidWinner == None && trumpSuit == None)
    && (phase == TrumpSelect || phase == Playing || phase == RoundEnd ==>
          bidWinner == Some(high) && high.player.Some?)
    && (phase == Playing || phase == RoundEnd ==> trumpSuit.Some?)
  }

  /** The engine's invariant, over the values of the state. */
  ghost predicate Inv(phase: Phase, deck: seq<Card>, hands: seq<seq<Card>>, table: seq<Play>, taken: multiset<Card>,
                      stock: multiset<Card>, teamTricks: Tally, high: Bid, passes: nat, bidWinner: Option<Bid>, trumpSuit: Option<Suit>)
  {
    && HandsSorted(hands)
    && |table| <= 4
    && Consistent(BidState(high, passes))
    && TricksCounted(taken, teamTricks)
    && PhaseRules(phase, deck, hands, table, taken, stock, bidWinner, trumpSuit, high)
  }

  /** A fresh first deal of a full permutation satisfies the invariant, with the auction open. */
  lemma FirstDealInv(deck: seq<Card>, hands: seq<seq<Card>>)
    requires FullDeckPermutation(deck) && |hands| == 4
    requires forall p :: 0 <= p < 4 ==> Sorted(hands[p])
    ensures Inv(Bidding, deck, hands, [], multiset{}, multiset(deck[20..]), Zero, Floor, 0, None, None)
  {
  }

  /** Handing out the stock to the hands keeps the invariant and starts play. */
  lemma SecondDealInv(deck: seq<Card>, hands: seq<seq<Card>>, newHands: seq<seq<Card>>, tricks: Tally, high: Bid,
                      passes: nat, bidWinner: Option<Bid>, trump: Option<Suit>)
    requires |deck| == 52
    requires Inv(TrumpSelect, deck, hands, [], multiset{}, multiset(deck[20..]), tricks, high, passes, bidWinner, trump)
    requires trump.Some? && SecondDealt(deck, hands, newHands)
    ensures Inv(Playing, deck, newHands, [], multiset{}, multiset{}, tricks, high, passes, bidWinner, trump)
  {
  }

  /** Moving one held card from a hand to the table keeps the invariant. */
  lemma PlayInv(deck: seq<Card>, hands: seq<seq<Card>>, table: seq<Play>, taken: multiset<Card>, stock: multiset<Card>,
                tricks: Tally, high: Bid, passes: nat, bidWinner: Option<Bid>, trump: Option<Suit>, player: Seat, card: Card)
    requires Inv(Playing, deck, hands, table, taken, stock, tricks, high, passes, bidWinner, trump)
    requires |table| < 4
    ensures Inv(Playing, deck, hands[player := RemoveId(hands[player], card.id)], table + [Play(player, card)],
                taken, stock, tricks, high, passes, bidWinner, trump)
  {
    FilterSorted(hands[player], (c: Card) => c.id != card.id);
    var newHands := hands[player := RemoveId(hands[player], card.id)];
    assert HandsSorted(newHands);
  }

  /** Moving the four cards of the table to the taken tricks, and counting one trick for a team, keeps the invariant. */
  lemma CollectInv(deck: seq<Card>, hands: seq<seq<Card>>, table: seq<Play>, taken: multiset<Card>, stock: multiset<Card>,
                   tricks: Tally, high: Bid, passes: nat, bidWinner: Option<Bid>, trump: Option<Suit>, team: Team)
    requires Inv(Playing, deck, hands, table, taken, stock, tricks, high, passes, bidWinner, trump)
    requires |table| == 4
    ensures Inv(Playing, deck, hands, [], taken + TrickCards(table), stock, tricks.Add(team, 1), high, passes, bidWinner, trump)
  {
    assert TricksCounted(taken + TrickCards(table), tricks.Add(team, 1));
  }

  /** The state `startGame` assigns, from a shuffled deck and its first deal, is a fresh deal. */
  lemma DealtFresh(g: Game, deck: seq<Card>, hands: seq<seq<Card>>)
    requires FullDeckPermutation(deck) && |hands| == 4
    requires forall p :: 0 <= p < 4 ==>
      multiset(hands[p]) == multiset(deck[5 * p .. 5 * p + 5]) && |hands[p]| == 5 && Sorted(hands[p])
    requires g.deck == deck && g.hands == hands && g.stock == multiset(deck[20..])
    requires g.phase == Bidding && g.playedCards == [] && g.taken == multiset{}
    requires g.teamTricks == Zero && g.currentHighBid == Floor && g.consecutivePasses == 0 && g.currentTurn == 0
    requires g.bidWinner == None && g.trumpSuit == None && !g.isTrumpRevealed
    ensures g.FreshDeal()
  {
    FirstDealInv(deck, hands);
  }

  // Card conservation. Every transition that moves cards keeps each card of
  // the deck in exactly one place; these lemmas relate the values before and
  // after, and the ones below them the states of a `Game` before and after.

  /** The first deal leaves the twenty dealt cards in the hands and the rest in the stock. */
  lemma FirstDealAccounted(deck: seq<Card>, hands: seq<seq<Card>>)
    requires |deck| == 52 && |hands| == 4
    requires forall p :: 0 <= p < 4 ==> multiset(hands[p]) == multiset(deck[5 * p .. 5 * p + 5])
    ensures CardsAccounted(deck, hands, [], multiset{}, multiset(deck[20..]))
  {
    FirstDealSplit(deck, hands);
  }

  /** The second deal moves the whole stock into the hands. */
  lemma SecondDealAccounted(deck: seq<Card>, hands: seq<seq<Card>>, newHands: seq<seq<Card>>)
    requires SecondDealt(deck, hands, newHands)
    requires CardsAccounted(deck, hands, [], multiset{}, multiset(deck[20..]))
    ensures CardsAccounted(deck, newHands, [], multiset{}, multiset{})
  {
    SecondDealSplit(deck, hands, newHands);
  }

  /**
   * Moving one held card from a hand to the table keeps every card of the
   * deck in exactly one place, and takes exactly that card out of the hand.
   */
  lemma PlayAccounted(deck: seq<Card>, hands: seq<seq<Card>>, table: seq<Play>, taken: multiset<Card>, stock: multiset<Card>,
                      player: Seat, card: Card)
    requires CardsAccounted(deck, hands, table, taken, stock) && FullDeckPermutation(deck)
    requires card in hands[player]
    ensures multiset(RemoveId(hands[player], card.id)) == multiset(hands[player]) - multiset{card}
    ensures CardsAccounted(deck, hands[player := RemoveId(hands[player], card.id)], table + [Play(player, card)], taken, stock)
  {
    var hand := hands[player];
    HandCardFacts(hands, TrickCards(table) + taken + stock, deck, player);
    RemoveIdTakesOne(hand, card);
    HandsBagTakeOne(hands, player, card);
    TrickCardsAppend(table, Play(player, card));
  }

  /** Collecting the trick moves its cards from the table to the taken tricks. */
  lemma CollectAccounted(deck: seq<Card>, hands: seq<seq<Card>>, table: seq<Play>, taken: multiset<Card>, stock: multiset<Card>)
    requires CardsAccounted(deck, hands, table, taken, stock)
    ensures CardsAccounted(deck, hands, [], taken + TrickCards(table), stock)
  {
    assert TrickCards([]) == multiset{};
  }

  /** startGame (and the re-deal) leaves every card of the new deck in one place. */
  lemma FreshDealAccounted(g: Game)
    requires g.FreshDeal()
    ensures g.Accounted()
  {
    FirstDealAccounted(g.deck, g.hands);
  }

  /** dealSecondPhase keeps every card of the deck in one place, the stock now empty. */
  twostate lemma SecondDealConserves(g: Game)
    requires old(g.Valid()) && old(g.phase) == TrumpSelect && old(g.Accounted())
    requires g.Valid() && g.phase == Playing && SecondDealt(g.deck, old(g.hands), g.hands)
    requires unchanged(g`deck, g`playedCards, g`taken)
    ensures g.Accounted()
  {
    SecondDealAccounted(g.deck, old(g.hands), g.hands);
  }

  /** playCard keeps every card of the deck in one place and takes exactly the played card out of the hand. */
  twostate lemma PlayCardConserves(g: Game, player: Seat, card: Card)
    requires old(g.Valid()) && old(g.phase) == Playing && old(g.Accounted())
    requires card in old(g.hands)[player]
    requires g.hands == old(g.hands)[player := RemoveId(old(g.hands)[player], card.id)]
    requires g.playedCards == old(g.playedCards) + [Play(player, card)]
    requires unchanged(g`deck, g`taken, g`stock)
    ensures g.Accounted()
    ensures multiset(g.hands[player]) == multiset(old(g.hands)[player]) - multiset{card}
  {
    PlayAccounted(g.deck, old(g.hands), old(g.playedCards), g.taken, g.stock, player, card);
  }

  /** Taking the trick (in evaluateTrick) keeps every card of the deck in one place. */
  twostate lemma TakeTrickConserves(g: Game)
    requires old(g.Accounted())
    requires g.playedCards == [] && g.taken == old(g.taken) + TrickCards(old(g.playedCards))
    requires unchanged(g`deck, g`hands, g`stock)
    ensures g.Accounted()
  {
    CollectAccounted(g.deck, g.hands, old(g.playedCards), old(g.taken), g.stock);
  }

  class Game {
    var phase: Phase
    var deck: seq<Card>
    var hands: seq<seq<Card>>
    var playedCards: seq<Play>
    var currentTurn: Seat
    var trumpSuit: Option<Suit>
    var isTrumpRevealed: bool
    var bidWinner: Option<Bid>
    var currentHighBid: Bid
    var consecutivePasses: nat
    var teamTricks: Tally
    var teamScores: Tally
    /** The cards of the tricks already taken this hand. */
    ghost var taken: multiset<Card>
    /** The cards of the deck not yet dealt. */
    ghost var stock: multiset<Card>

    /**
     * Four sorted hands and at most four cards on the table; a consistent
     * auction; four taken cards per trick counted; and the rules of the
     * current phase.
     */
    ghost predicate Valid()
      reads this`phase, this`deck, this`hands, this`playedCards, this`taken, this`stock, this`teamTricks,
        this`currentHighBid, this`consecutivePasses, this`bidWinner, this`trumpSuit
    {
      Inv(phase, deck, hands, playedCards, taken, stock, teamTricks, currentHighBid, consecutivePasses, bidWinner, trumpSuit)
    }

    /** Every card of the deck is in exactly one place: a hand, the table, a taken trick, or the stock. */
    ghost predicate Accounted()
      reads this`deck, this`hands, this`playedCards, this`taken, this`stock
    {
      CardsAccounted(deck, hands, playedCards, taken, stock)
    }

    /**
     * The state `startGame` leaves: a shuffled full deck, five cards from
     * positions 5p..5p+4 to seat p, sorted; a fresh auction with seat 0 to
     * bid; no trump, no bid winner, no tricks.
     */
    ghost predicate FreshDeal()
      reads this
    {
      && Valid()
      && phase == Bidding
      && |deck| == 52 && multiset(deck) == multiset(FullDeck())
      && (forall p :: 0 <= p < 4 ==>
            multiset(hands[p]) == multiset(deck[5 * p .. 5 * p + 5]) && |hands[p]| == 5 && Sorted(hands[p]))
      && playedCards == [] && trumpSuit == None && !isTrumpRevealed && bidWinner == None
      && currentHighBid == Floor && consecutivePasses == 0 && currentTurn == 0
      && teamTricks == Zero
    }

    /** The component's initial state: the lobby, nothing dealt, opening auction values, zero scores. */
    constructor ()
      ensures Valid() && phase == Lobby
      ensures deck == [] && hands == [[], [], [], []] && playedCards == [] && currentTurn == 0
      ensures trumpSuit == None && !isTrumpRevealed && bidWinner == None
      ensures currentHighBid == Floor && consecutivePasses == 0
      ensures teamTricks == Zero && teamScores == Zero
    {
      phase := Lobby;
      deck := [];
      hands := [[], [], [], []];
      playedCards := [];
      currentTurn := 0;
      trumpSuit := None;
      isTrumpRevealed := false;
      bidWinner := None;
      currentHighBid := Floor;
      consecutivePasses := 0;
      teamTricks := Zero;
      teamScores := Zero;
      taken := multiset{};
      stock := multiset{};
    }

    /**
     * startGame: shuffle a new deck with the given random draws, deal five
     * cards to each seat and open the auction. The running scores are kept.
     */
    method StartGame(draws: seq<real>)
      requires Draws(draws)
      modifies this
      ensures FreshDeal()
      ensures teamScores == old(teamScores)
    {
      var newDeck, newHands := ShuffleAndDeal(draws);
      SetDeal(newDeck, newHands);
      ResetTricks();
      ResetAuction();
      DealtFresh(this, newDeck, newHands);
    }

    /** Puts a new deck and its first deal on the table, with the undealt cards in the stock. */
    method SetDeal(newDeck: seq<Card>, newHands: seq<seq<Card>>)
      requires |newDeck| >= 20
      modifies this`deck, this`hands, this`stock, this`phase
      ensures deck == newDeck && hands == newHands && stock == multiset(newDeck[20..]) && phase == Bidding
    {
      deck := newDeck;
      hands := newHands;
      stock := multiset(newDeck[20..]);
      phase := Bidding;
    }

    /** Clears the table and the trick counts of the hand. */
    method ResetTricks()
      modifies this`teamTricks, this`playedCards, this`taken, this`currentTurn
      ensures teamTricks == Zero && playedCards == [] && taken == multiset{} && currentTurn == 0
    {
      teamTricks := Zero;
      playedCards := [];
      taken := multiset{};
      currentTurn := 0;
    }

    /** Opens a new auction: the floor bid, no passes, no contract and no trump. */
    method ResetAuction()
      modifies this`trumpSuit, this`isTrumpRevealed, this`bidWinner, this`currentHighBid, this`consecutivePasses
      ensures trumpSuit == None && !isTrumpRevealed && bidWinner == None && currentHighBid == Floor && consecutivePasses == 0
    {
      trumpSuit := None;
      isTrumpRevealed := false;
      bidWinner := None;
      currentHighBid := Floor;
      consecutivePasses := 0;
    }

    /**
     * The outcome of an auction action of `player` with `amount`: the verdict
     * is the auction rule applied to the new bid state. Unless the hand is
     * re-dealt, the high bid and passes are the auction step's result and the
     * cards, the table, the trump and its reveal and the trick counts are
     * untouched; a contract moves to trump selection with the high bid as the
     * bid winner and the turn unchanged; otherwise the next seat is to bid.
     * A re-deal is a fresh deal. The scores are kept in every case.
     */
    twostate predicate BidApplied(player: Seat, amount: int, verdict: Verdict)
      reads this
    {
      var step := BidStep(BidState(old(currentHighBid), old(consecutivePasses)), player, amount);
      && verdict == Decide(step, player)
      && teamScores == old(teamScores)
      && (verdict.Redeal? ==> FreshDeal())
      && (!verdict.Redeal? ==>
            && BidState(currentHighBid, consecutivePasses) == step
            && deck == old(deck) && hands == old(hands) && playedCards == old(playedCards)
            && trumpSuit == old(trumpSuit) && isTrumpRevealed == old(isTrumpRevealed)
            && teamTricks == old(teamTricks))
      && (verdict.Resolved? ==>
            phase == TrumpSelect && bidWinner == Some(verdict.winner) && currentTurn == old(currentTurn))
      && (verdict.Continue? ==>
            phase == Bidding && bidWinner == old(bidWinner) && currentTurn == verdict.next)
    }

    /**
     * processBidTurn: apply the action of `player` to the auction, then close
     * it on a contract (`finalizeBidding`), re-deal with `draws` when all four
     * passed with no bidder, or pass the turn to the next seat.
     */
    method ProcessBidTurn(player: Seat, amount: int, draws: seq<real>) returns (verdict: Verdict)
      requires Valid() && phase == Bidding
      requires Draws(draws)
      modifies this
      ensures Valid()
      ensures BidApplied(player, amount, verdict)
    {
      var step := BidStep(BidState(currentHighBid, consecutivePasses), player, amount);
      verdict := Decide(step, player);
      RecordBid(player, amount, if verdict.Continue? then verdict.next else currentTurn);
      if verdict.Resolved? {
        FinalizeBidding(step.high);
      } else if verdict.Redeal? {
        StartGame(draws);
      }
    }

    /** handleUserBid: the human seat's pass (0) or bid goes through `processBidTurn` as seat 0's action. */
    method HandleUserBid(amount: int, draws: seq<real>) returns (verdict: Verdict)
      requires Valid() && phase == Bidding
      requires Draws(draws)
      modifies this
      ensures Valid()
      ensures BidApplied(0, amount, verdict)
    {
      verdict := ProcessBidTurn(0, amount, draws);
    }

    /** The first half of processBidTurn: the new high bid and pass count, and whose turn it is. */
    method RecordBid(player: Seat, amount: int, nextTurn: Seat)
      requires Valid() && phase == Bidding
      modifies this`currentHighBid, this`consecutivePasses, this`currentTurn
      ensures Valid() && currentTurn == nextTurn
      ensures BidState(currentHighBid, consecutivePasses) == BidStep(BidState(old(currentHighBid), old(consecutivePasses)), player, amount)
    {
      var step := BidStep(BidState(currentHighBid, consecutivePasses), player, amount);
      currentHighBid := step.high;
      consecutivePasses := step.passes;
      currentTurn := nextTurn;
    }

    /** finalizeBidding: the high bid becomes the contract and the auction gives way to the choice of trump. */
    method FinalizeBidding(winner: Bid)
      requires Valid() && phase == Bidding
      requires winner == currentHighBid && winner.player.Some?
      modifies this`bidWinner, this`phase
      ensures Valid() && phase == TrumpSelect && bidWinner == Some(winner)
    {
      bidWinner := Some(winner);
      phase := TrumpSelect;
    }

    /**
     * aiBid: the computer seat's estimate of its five cards decides the
     * amount (a pass or a genuine raise), which is then played through
     * `processBidTurn`.
     */
    method AiBid(player: Seat, draws: seq<real>) returns (amount: int, verdict: Verdict)
      requires Valid() && phase == Bidding
      requires Draws(draws)
      modifies this
      ensures Valid()
      ensures var hand := old(hands)[player];
        amount == BidDecision(Potential(LongestSuit(hand), Hcp(hand)), Hcp(hand), player, old(currentHighBid))
      ensures amount == 0 || amount > old(currentHighBid).amount
      ensures BidApplied(player, amount, verdict)
    {
      amount := AiBidAmount(player, hands[player], currentHighBid);
      verdict := ProcessBidTurn(player, amount, draws);
    }

    /**
     * handleTrumpSelect: the bid winner names the trump, which starts hidden;
     * then the second deal.
     */
    method HandleTrumpSelect(suit: Suit)
      requires Valid() && phase == TrumpSelect
      modifies this`trumpSuit, this`isTrumpRevealed, this`hands, this`stock, this`phase, this`currentTurn
      ensures Valid() && phase == Playing
      ensures trumpSuit == Some(suit) && !isTrumpRevealed
      ensures currentTurn == currentHighBid.player.value
      ensures SecondDealt(deck, old(hands), hands)
    {
      NameTrump(suit);
      DealSecondPhase(bidWinner);
    }

    /**
     * aiSelectTrump: a computer bid winner names the longest suit of its
     * five cards (the first of S, H, C, D on a tie), hidden; then the second deal.
     */
    method AiSelectTrump()
      requires Valid() && phase == TrumpSelect
      modifies this`trumpSuit, this`isTrumpRevealed, this`hands, this`stock, this`phase, this`currentTurn
      ensures Valid() && phase == Playing && !isTrumpRevealed
      ensures var hand := old(hands)[currentHighBid.player.value];
        forall s :: Count(hand, s) <= Count(hand, trumpSuit.value)
      ensures var hand := old(hands)[currentHighBid.player.value];
        forall k :: 0 <= k < SuitIndex(trumpSuit.value) ==> Count(hand, Suits[k]) < Count(hand, trumpSuit.value)
      ensures currentTurn == currentHighBid.player.value
      ensures SecondDealt(deck, old(hands), hands)
    {
      var bidder := bidWinner.value.player.value;
      var bestSuit := SelectTrumpSuit(hands[bidder]);
      NameTrump(bestSuit);
      DealSecondPhase(bidWinner);
    }

    /** The trump suit is fixed and starts hidden. */
    method NameTrump(suit: Suit)
      requires Valid() && phase == TrumpSelect
      modifies this`trumpSuit, this`isTrumpRevealed
      ensures Valid() && trumpSuit == Some(suit) && !isTrumpRevealed
    {
      trumpSuit := Some(suit);
      isTrumpRevealed := false;
    }

    /**
     * dealSecondPhase: each seat p receives deck positions 20+8p..27+8p and
     * re-sorts; play starts with the bid winner to lead. The source's "bid
     * winner not found" exit cannot be taken from a valid state.
     */
    method DealSecondPhase(winnerObj: Option<Bid>)
      requires Valid() && phase == TrumpSelect && trumpSuit.Some?
      requires winnerObj == None || winnerObj == bidWinner
      modifies this`hands, this`stock, this`phase, this`currentTurn
      ensures Valid() && phase == Playing
      ensures currentTurn == currentHighBid.player.value
      ensures SecondDealt(deck, old(hands), hands)
    {
      var currentWinner := if winnerObj.Some? then winnerObj else bidWinner;
      assert currentWinner.Some? && currentWinner.value.player.Some?;
      var newHands := SecondDeal(deck, hands);
      SecondDealInv(deck, hands, newHands, teamTricks, currentHighBid, consecutivePasses, bidWinner, trumpSuit);
      hands := newHands;
      stock := multiset{};
      phase := Playing;
      currentTurn := currentWinner.value.player.value;
    }

    /**
     * playCard: the card leaves the player's hand (by identifier) and is
     * appended to the trick; a trump played reveals the trump for good; the
     * turn passes to the next seat unless the trick is now complete.
     */
    method PlayCard(player: Seat, card: Card)
      requires Valid() && phase == Playing && |playedCards| < 4
      requires card in hands[player]
      modifies this`hands, this`playedCards, this`isTrumpRevealed, this`currentTurn
      ensures Valid()
      ensures hands == old(hands)[player := RemoveId(old(hands)[player], card.id)]
      ensures playedCards == old(playedCards) + [Play(player, card)]
      ensures isTrumpRevealed == (old(isTrumpRevealed) || trumpSuit == Some(card.suit))
      ensures |playedCards| < 4 ==> currentTurn == NextSeat(player)
      ensures |playedCards| == 4 ==> currentTurn == old(currentTurn)
    {
      PlayInv(deck, hands, playedCards, taken, stock, teamTricks, currentHighBid, consecutivePasses, bidWinner, trumpSuit, player, card);
      var newTable := playedCards + [Play(player, card)];
      var nextTurn := if |newTable| < 4 then NextSeat(player) else currentTurn;
      hands := hands[player := RemoveId(hands[player], card.id)];
      playedCards := newTable;
      isTrumpRevealed := isTrumpRevealed || trumpSuit == Some(card.suit);
      currentTurn := nextTurn;
    }

    /**
     * aiTurn: the computer seat picks a card by the heuristics, falls back to
     * the first legal card if the pick were illegal, and plays it. The card
     * played is always a legal card of the seat's hand.
     */
    method AiTurn(seat: Seat) returns (card: Card)
      requires Valid() && phase == Playing && |playedCards| < 4
      requires hands[seat] != []
      modifies this`hands, this`playedCards, this`isTrumpRevealed, this`currentTurn
      ensures Valid()
      ensures card in old(hands)[seat] && IsValidPlay(card, old(hands)[seat], old(playedCards))
      ensures AiChoice(seat, old(hands)[seat], old(playedCards), trumpSuit, old(isTrumpRevealed), bidWinner, card)
      ensures hands == old(hands)[seat := RemoveId(old(hands)[seat], card.id)]
      ensures playedCards == old(playedCards) + [Play(seat, card)]
      ensures isTrumpRevealed == (old(isTrumpRevealed) || trumpSuit == Some(card.suit))
      ensures |playedCards| < 4 ==> currentTurn == NextSeat(seat)
      ensures |playedCards| == 4 ==> currentTurn == old(currentTurn)
    {
      var hand := hands[seat];
      var proposed := ProposeCard(seat, hand, playedCards, trumpSuit, isTrumpRevealed, bidWinner);
      card := Fallback(proposed, hand, playedCards);
      PlayCard(seat, card);
    }

    /**
     * evaluateTrick: the winner of the four-card trick scores one trick for
     * its team, the table is cleared, and either the round ends (the human
     * seat has no cards left) or the winner leads the next trick.
     */
    method EvaluateTrick() returns (winner: Play)
      requires Valid() && phase == Playing && |playedCards| == 4
      modifies this`teamTricks, this`taken, this`playedCards, this`phase, this`teamScores, this`currentTurn
      ensures Valid()
      ensures exists k :: WinsAt(old(playedCards), trumpSuit, k) && old(playedCards)[k] == winner
      ensures teamTricks == old(teamTricks).Add(TeamOf(winner.player), 1)
      ensures playedCards == [] && taken == old(taken) + TrickCards(old(playedCards))
      ensures hands[0] == [] ==>
        && phase == RoundEnd && currentTurn == old(currentTurn)
        && teamScores == ScoreRound(old(teamScores), currentHighBid.player.value, currentHighBid.amount, teamTricks)
      ensures hands[0] != [] ==>
        phase == Playing && currentTurn == winner.player && teamScores == old(teamScores)
    {
      winner := GetCurrentTrickWinner(playedCards, trumpSuit);
      var winningTeam := TeamOf(winner.player);
      TakeTrick(winningTeam, if hands[0] != [] then winner.player else currentTurn);
      if hands[0] == [] {
        EndRound();
      }
    }

    /** The winning team scores the trick, the table is cleared and the turn passes to `nextTurn`. */
    method TakeTrick(team: Team, nextTurn: Seat)
      requires Valid() && phase == Playing && |playedCards| == 4
      modifies this`teamTricks, this`taken, this`playedCards, this`currentTurn
      ensures Valid() && currentTurn == nextTurn
      ensures teamTricks == old(teamTricks).Add(team, 1)
      ensures playedCards == [] && taken == old(taken) + TrickCards(old(playedCards))
    {
      CollectInv(deck, hands, playedCards, taken, stock, teamTricks, currentHighBid, consecutivePasses, bidWinner, trumpSuit, team);
      teamTricks := teamTricks.Add(team, 1);
      taken := taken + TrickCards(playedCards);
      playedCards := [];
      currentTurn := nextTurn;
    }

    /** endRound: score the contract against the tricks the bidding team took. */
    method EndRound()
      requires Valid() && phase == Playing
      modifies this`phase, this`teamScores
      ensures Valid() && phase == RoundEnd
      ensures teamScores == ScoreRound(old(teamScores), bidWinner.value.player.value, bidWinner.value.amount, teamTricks)
    {
      phase := RoundEnd;
      var bidder := bidWinner.value;
      teamScores := ScoreRound(teamScores, bidder.player.value, bidder.amount, teamTricks);
    }
  }
}

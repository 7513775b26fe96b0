# Rang (Bangladeshi Bridge): a verified model of the rules engine

This project models, in Dafny, the rules engine of the `BridgeGame` React
component: four seats in two partnerships (South/North against East/West)
play a hand of Rang. The hand proceeds in these stages:

1. A 52-card deck is built and shuffled.
2. Five cards go to each seat.
3. An auction opens at a floor of 6 that nobody holds. It closes on a
   contract after three passes, or is re-dealt after four passes with no
   bidder.
4. The bid winner names a hidden trump suit.
5. The remaining 32 cards are dealt eight per seat.
6. Thirteen tricks are played with suit-following. A trump reveals the
   trump suit for good.
7. The round is scored: a made contract earns 10 plus one per overtrick.
   A failed contract moves its value to the defenders.

The computer seats' heuristics are modelled as well: the bid estimate, the
choice of trump and the choice of card.

The modules follow the parts of the component:

- `Seats` holds seats, teams, partner and next seat.
- `Cards` holds suits, ranks, `RANK_POWER`, card identifiers, `createDeck`
  and the Fisher-Yates `shuffleDeck`.
- `Hands` holds the `filter` operations and `sortHand`, an in-place sort of
  an array.
- `Auction` is the bid state machine of `processBidTurn`.
- `Tricks` holds `isValidPlay`, `getCurrentTrickWinner` and the cards of a
  trick.
- `Scoring` holds per-team tallies and `endRound`'s arithmetic.
- `Visibility` is the decision inside `renderTrumpIcon`.
- `Heuristics` holds `aiBid`, `aiSelectTrump` and `aiTurn`'s card choice.
- `Engine` holds the class `Game`. Its fields are the component's state
  variables, and its methods are the handlers. Each `setTimeout`
  continuation is a separate method the caller invokes next.

`Game` carries two ghost fields, `taken` (the cards of finished tricks) and
`stock` (the undealt cards). Its invariant `Valid()` covers:

- four sorted hands;
- at most four cards on the table;
- a consistent auction;
- four taken cards per counted trick;
- the rules of the current phase.

Conservation of the cards is the separate predicate `Accounted()`: every
card of the deck is in exactly one place (a hand, the table, a taken trick
or the stock). It is proved for every transition that moves cards:

- the deal of `startGame` (`FreshDealAccounted`);
- `dealSecondPhase` (`SecondDealConserves`);
- `playCard` (`PlayCardConserves`);
- the collection of a trick in `evaluateTrick` (`TakeTrickConserves`).

Each of these lemmas takes as hypotheses exactly what the corresponding
method's postcondition and frame guarantee. The other handlers move cards
only through these transitions: `aiTurn` plays through `playCard`, and the
re-deal of `processBidTurn`, `aiBid` and `handleUserBid` goes through the
deal of `startGame`. The same lemmas therefore apply after them. Apart from
these transitions, no handler changes the deck, the hands, the table,
`taken` or `stock`.

Where the behaviour described for the game and the code differ, the model
follows the code:

- `playCard` performs no legality check. Only the human seat's buttons are
  gated by `isValidPlay`.
- The round ends when seat 0's hand is empty.
- A seat that can neither follow suit nor trump plays the last card of its
  sorted hand. That is the weakest card of the last suit group, not
  necessarily the lowest-powered card.
- An all-pass auction calls `startGame` directly. The `dealing_1` and
  `dealing_2` phases are never set.

## Model

| member | source | states |
|---|---|---|
| Seats.TeamOf | src/App.jsx:444 | seats 0 and 2 form team 0, seats 1 and 3 team 1 |
| Seats.Opponents | src/App.jsx:468 | the defending team is the other team |
| Seats.Partner | src/App.jsx:246 | the partner sits two seats away, is another seat and is on the same team |
| Seats.NextSeat | src/App.jsx:215 | the turn passes to `(p + 1) % 4`, always a seat of the other team |
| Cards.Power | src/App.jsx:22-25 | `RANK_POWER`: Ace 14 down to Two 2, i.e. 14 minus the rank's position, always in 2..14 |
| Cards.SuitIndex | src/App.jsx:19 | the position of a suit in `SUITS` (S, H, C, D), used by `sortHand` |
| Cards.RankIndex | src/App.jsx:20 | the position of a rank in `RANKS` (A first, 2 last) |
| Cards.IdDeterminesCard | src/App.jsx:55 | the identifier `${rank}${suit}` determines both rank and suit, so identifiers are unique |
| Cards.CreateDeck | src/App.jsx:47-60 | the nested loops push exactly the full deck: position `13 * s + r` holds suit `s`, rank `r`, its power and identifier |
| Cards.DeckPosition | src/App.jsx:47-60 | every suit/rank pair sits at position `13 * SuitIndex + RankIndex` of the deck |
| Cards.FullDeckFacts | src/App.jsx:47-60 | the deck has 52 cards, each well formed with power in 2..14, every suit/rank pair occurs, and no two positions share an identifier |
| Cards.DeckCardInjective | src/App.jsx:55 | two deck positions with the same identifier are the same position |
| Cards.FullDeckMultiplicity | src/App.jsx:47-60 | no card occurs twice in the deck, and every card of it is well formed |
| Cards.DrawIndex | src/App.jsx:65 | `Math.floor(Math.random() * (i + 1))` is a position in 0..i |
| Cards.ShuffleDeck | src/App.jsx:62-69 | the Fisher-Yates loop returns a permutation of its input of the same length |
| Cards.Swap | src/App.jsx:66 | the destructuring swap exchanges two positions and keeps the contents a permutation |
| Hands.Filter | src/App.jsx:340 | `filter` keeps exactly the cards that pass, in order, as a sub-multiset of the input |
| Hands.FilterAppend | src/App.jsx:340 | filtering a concatenation filters each part |
| Hands.RemoveIdTakesOne | src/App.jsx:351 | removing a held card by identifier from a hand of unique well-formed cards takes away exactly that card |
| Hands.RemoveIdDropsAll | src/App.jsx:351 | removing by identifier drops every copy of the card and nothing else |
| Hands.FilterSorted | src/App.jsx:393 | a filter of a sorted hand (the cards of one suit, the winners) is still sorted |
| Hands.LastIsWeakest | src/App.jsx:401 | in a sorted run of one suit the last card has the least power |
| Hands.LastOfSuitIsWeakest | src/App.jsx:386 | in a sorted hand the last card of a suit's filter is the weakest of that suit |
| Hands.Compare | src/App.jsx:171-174 | negative exactly when the first card goes first: cards of different suits follow S, H, C, D and never tie; inside a suit the higher power goes first and only equal powers tie |
| Hands.SortHand | src/App.jsx:170-175 | the array ends sorted (suit order S, H, C, D, then descending power) and is a permutation of its old contents |
| Hands.SortedCopy | src/App.jsx:149-152 | the dealt slice, sorted: same cards, same length, sorted |
| Auction.BidStep | src/App.jsx:192-201 | a strictly higher amount becomes the high bid held by the bidder and resets the passes; any other amount adds one pass; the high bid never falls; consistency is kept |
| Auction.Decide | src/App.jsx:203-215 | resolved iff at least 3 passes with a holder, re-deal iff at least 4 passes with no holder, otherwise the next seat bids |
| Auction.WinningBidAboveFloor | src/App.jsx:203-206 | a contract always has a holder and is at least 7: the floor of 6 never wins |
| Auction.RunHighBid | src/App.jsx:191-223 | over any sequence of actions the high bid never falls below any amount offered and, unless it is the starting one, is the bid of the seat whose turn it was, strictly above every earlier action |
| Tricks.IsValidPlay | src/App.jsx:336-347 | on an empty table every card is legal; otherwise a card is legal iff it follows the lead suit or the hand holds no card of the lead suit |
| Tricks.SomeCardIsLegal | src/App.jsx:420 | a non-empty hand always holds a legal card |
| Tricks.FirstLegal | src/App.jsx:420 | `hand.find(isValidPlay)` returns the first legal card of the hand (no earlier card is legal), or none exactly when no card is legal |
| Tricks.FirstLegalFrom | src/App.jsx:420 | the search over the rest of the hand returns the first legal card of that rest, or none exactly when none is legal |
| Tricks.GetCurrentTrickWinner | src/App.jsx:426-439 | the result is the unique play that is of the winning suit (trump if any trump was played, else the lead suit), has the highest power of that suit and is the earliest such; it is of the lead suit or of trump |
| Tricks.WinnerIsUnique | src/App.jsx:426-439 | at most one play of a trick wins it |
| Tricks.TrickCards | src/App.jsx:354 | the cards on the table, as many as there are plays |
| Tricks.TrickCardsAppend | src/App.jsx:354 | appending a play adds exactly its card to the cards on the table |
| Scoring.Tally.Add | src/App.jsx:446-449 | one team's counter grows by the amount and the other team's is untouched |
| Scoring.ScoreRound | src/App.jsx:464-487 | a made contract gives the bidding team 10 plus the overtricks and the defenders nothing; a failed one moves the contract value from the bidders to the defenders, total unchanged |
| Scoring.MoreTricksNeverHurt | src/App.jsx:473-482 | more tricks for the bidding team never lower its new score nor raise the defenders' |
| Visibility.VisibleTrump | src/App.jsx:491-535 | a seat is shown a suit iff a trump is chosen and it is revealed or the seat is the bid winner; what it is shown is the trump; "private" only while hidden |
| Visibility.AtMostOneSeatSeesHiddenTrump | src/App.jsx:491-535 | before the reveal at most one seat sees the trump; after it every seat is shown the same thing |
| Heuristics.Count | src/App.jsx:227-228 | the number of cards of a suit, at most the hand's size |
| Heuristics.CountIsOfSuitLength | src/App.jsx:227-228 | the count of a suit is the number of the hand's cards of that suit |
| Heuristics.CountsCoverHand | src/App.jsx:227-228 | the four suit counts add up to the hand's size |
| Heuristics.SuitCounts | src/App.jsx:227-228 | the `suits` map holds every suit's count after the `forEach` |
| Heuristics.Hcp | src/App.jsx:235-238 | the high-card points: every card above 10 counts its power minus 10, so a hand of cards up to 10 scores 0 and any hand at most 4 per card |
| Heuristics.HcpAppend | src/App.jsx:235-238 | the points of two parts of a hand add up, whatever order the `reduce` takes them in |
| Heuristics.LongestSuit | src/App.jsx:230-233 | `maxSuitCount` is the count of some suit and no suit has more |
| Heuristics.Potential | src/App.jsx:240-243 | the trick estimate is at least 6 and at most 8 plus the excess of the longest suit over 2 |
| Heuristics.BidDecision | src/App.jsx:245-255 | a pass or a strict raise, never above the estimate; over the partner a pass or a raise of exactly one; over an opponent the estimate itself, and above 9 only with 10 or more high-card points; conversely, from a non-negative high bid the seat bids exactly when the estimate exceeds the partner's bid by more than one, or exceeds an opponent's bid without being above 9 on fewer than 10 points |
| Heuristics.AiBidAmount | src/App.jsx:225-255 | the loop over the suit counts computes the decision of `BidDecision` on the longest suit and the high-card points |
| Heuristics.AiBidInRange | src/App.jsx:225-255 | on a five-card hand a computer seat passes or bids between 7 and 11 |
| Heuristics.SelectTrumpSuit | src/App.jsx:287-301 | the chosen suit has the most cards, and every suit before it in S, H, C, D order has strictly fewer |
| Heuristics.MaxLeadPower | src/App.jsx:403 | `tableMax` is the power of some lead-suit card on the table and no lead-suit card there has more |
| Heuristics.LastOfSuit | src/App.jsx:386 | the last card of a suit's filter of a sorted hand is the weakest of them and is in the hand |
| Heuristics.Trumps | src/App.jsx:381 | `trumps` holds exactly the hand's cards of the trump suit, and none when no trump is chosen |
| Heuristics.KnowsTrump | src/App.jsx:383 | a seat knows the trump once it is revealed, and before that only if it is the bid winner |
| Heuristics.KnowsTrumpIsVisible | src/App.jsx:383 | a seat knows the trump exactly when the trump indicator shows it the suit |
| Heuristics.LeadChoice | src/App.jsx:379-389 | leading, a seat that knows trump and holds four or more leads its weakest trump; otherwise the first card |
| Heuristics.FollowChoice | src/App.jsx:396-407 | following suit: the weakest lead-suit card when the partner is winning; otherwise the weakest card beating every lead-suit card on the table, or the weakest lead-suit card when none beats them |
| Heuristics.DiscardChoice | src/App.jsx:408-416 | void in the lead suit: the weakest trump if any is held, else the last card of the hand |
| Heuristics.ProposeCard | src/App.jsx:379-416 | the proposed card is in the hand and always legal; leading, it is the weakest trump for a seat that knows trump and holds four, else the first card; following, the `FollowChoice` pick among the lead-suit cards; void, the weakest trump if one is held, else the last card |
| Heuristics.Fallback | src/App.jsx:419-421 | a legal proposal is kept; an illegal one is replaced by the first legal card of the hand, as `find` returns it |
| Engine.HandsBagTakeOne | src/App.jsx:351-352 | taking one held card out of one hand takes exactly that card out of the seats' cards |
| Engine.FirstDealSplit | src/App.jsx:149-152 | after dealing positions `5p..5p+4` to seat p, the hands and positions 20..51 together hold the deck |
| Engine.SecondDealSplit | src/App.jsx:321-325 | dealing positions `20+8p..27+8p` to seat p hands out exactly positions 20..51 |
| Engine.HandCardFacts | src/App.jsx:351 | while the hands are part of a full deck, every held card is well formed and held once |
| Engine.FirstDeal | src/App.jsx:148-152 | seat p holds deck positions `5p..5p+4`, five cards, sorted; the hands and the undealt positions hold the deck |
| Engine.SecondDeal | src/App.jsx:318-325 | seat p holds its old cards plus positions `20+8p..27+8p`, eight more, sorted |
| Engine.ShuffleAndDeal | src/App.jsx:144-152 | a shuffled permutation of the 52 cards and its first deal |
| Engine.FirstDealInv | src/App.jsx:143-164 | a first deal of a full deck satisfies the invariant with the auction open |
| Engine.SecondDealInv | src/App.jsx:310-329 | the second deal keeps the invariant and starts play |
| Engine.PlayInv | src/App.jsx:349-355 | moving a card from a hand to the table keeps the invariant |
| Engine.CollectInv | src/App.jsx:441-452 | collecting a full trick and counting it for one team keeps the invariant |
| Engine.DealtFresh | src/App.jsx:143-164 | the values `startGame` assigns make a fresh deal |
| Engine.FirstDealAccounted | src/App.jsx:144-154 | after the first deal every card is in a hand or in the stock, once |
| Engine.SecondDealAccounted | src/App.jsx:318-326 | the second deal moves the whole stock into the hands |
| Engine.PlayAccounted | src/App.jsx:349-355 | playing a held card moves exactly that card from the hand to the table and keeps every card in one place |
| Engine.CollectAccounted | src/App.jsx:446-452 | clearing the table moves its cards to the taken tricks |
| Engine.FreshDealAccounted | src/App.jsx:143-164 | after `startGame` every card of the new deck is in exactly one place |
| Engine.SecondDealConserves | src/App.jsx:310-329 | the state after `dealSecondPhase` keeps every card in one place, the stock now empty |
| Engine.PlayCardConserves | src/App.jsx:349-355 | the state after `playCard` keeps every card in one place, and the hand lost exactly the card played |
| Engine.TakeTrickConserves | src/App.jsx:446-452 | the state after the trick is collected keeps every card in one place |
| Engine.Game.constructor | src/App.jsx:110-124 | the initial state: lobby, nothing dealt, the floor bid, zero tricks and scores |
| Engine.Game.StartGame | src/App.jsx:143-168 | a fresh deal: a shuffled full deck, seat p holding positions `5p..5p+4` sorted, the auction open with seat 0 to bid, scores kept |
| Engine.Game.SetDeal | src/App.jsx:145-155 | the new deck and hands, the bidding phase |
| Engine.Game.ResetTricks | src/App.jsx:156-164 | no tricks counted, an empty table, seat 0's turn |
| Engine.Game.ResetAuction | src/App.jsx:158-162 | no trump, hidden, no bid winner, the floor bid, no passes |
| Engine.Game.ProcessBidTurn | src/App.jsx:191-223 | the verdict is the auction rule applied to the new bid state; a contract moves to trump selection with the high bid as winner and the turn unchanged; a re-deal is a fresh deal; otherwise the next seat bids; without a re-deal the cards, table, trump, reveal and trick counts are unchanged; the scores always are; the invariant holds |
| Engine.Game.HandleUserBid | src/App.jsx:179-189 | the human seat's action has exactly the outcome of `processBidTurn` for seat 0: verdict, new bid state, phase, turn, fresh deal on a re-deal, everything else unchanged |
| Engine.Game.RecordBid | src/App.jsx:192-201 | the high bid and passes become the auction step's result |
| Engine.Game.FinalizeBidding | src/App.jsx:262-272 | the high bid becomes the contract and trump selection starts |
| Engine.Game.AiBid | src/App.jsx:225-260 | the amount is the seat's heuristic decision on its hand, a pass or a strict raise, and has exactly the outcome of `processBidTurn` for that seat and amount |
| Engine.Game.HandleTrumpSelect | src/App.jsx:276-285 | the named suit is trump, hidden; every seat gets its eight cards; play starts with the bid winner to lead |
| Engine.Game.AiSelectTrump | src/App.jsx:287-306 | trump is the bidder's longest suit (first in S, H, C, D order on a tie), hidden; then the second deal |
| Engine.Game.NameTrump | src/App.jsx:277-278 | the trump is fixed and hidden |
| Engine.Game.DealSecondPhase | src/App.jsx:310-334 | seat p adds positions `20+8p..27+8p` and re-sorts; play starts with the bid winner to lead |
| Engine.Game.PlayCard | src/App.jsx:349-373 | the card leaves the player's hand by identifier and is appended to the trick; a trump played reveals the trump for good; the turn passes on unless the trick is complete |
| Engine.Game.AiTurn | src/App.jsx:375-424 | the card played is in the seat's hand and legal, and is the heuristic's lead, follow (weakest card, weakest winner) or discard choice; it moves from the hand to the table, reveals the trump if it is one, and passes the turn unless the trick is complete |
| Engine.Game.EvaluateTrick | src/App.jsx:441-462 | the trick's unique winner scores one trick for its team only; the table is cleared; the round is scored with the turn unchanged when seat 0's hand is empty, else the winner leads |
| Engine.Game.TakeTrick | src/App.jsx:446-452 | one more trick for the team, the table's cards move to the taken tricks |
| Engine.Game.EndRound | src/App.jsx:464-487 | the round ends and the scores are the contract's result for the bid winner's team |

## Left out

- The user interface is not modelled. That covers the JSX rendering, the message log, the modals and selector flags, icons and names, and the `setTimeout` pacing. Each delayed call is a separate method the caller invokes.
- `Math.random` is not modelled. `shuffleDeck` receives its draws as a parameter, one value in [0, 1) per deck position.
- React's batching and stale closures are not modelled. The model reads each state value after the updates made before it. The component's callbacks can read values captured at an earlier render; `endRound`, for example, reads `teamTricks` before the last trick's increment is applied. That timing is outside this model.
- `sortHand` uses `Array.prototype.sort`. The model uses a stable insertion sort with the same comparator. Cards never compare equal within a hand, so the order is the same.
- `dealSecondPhase`'s "Bid Winner not found" exit is not modelled as a reachable path. A valid state in trump selection always has a bid winner.
- The handlers state the phase the source calls them in as a precondition. `PlayCard` and `AiTurn` require a held card and a non-empty hand, which the turn order guarantees.
- `Engine.Game.PlayCard`: its postcondition does not itself say that the hand lost exactly the played card, or that every card stays in one place. `Engine.PlayCardConserves` proves both from that postcondition. The other card-moving handlers are split the same way, with their `...Conserves` lemma.
- The `dealing_1` and `dealing_2` phases are not modelled, because the source never sets them.

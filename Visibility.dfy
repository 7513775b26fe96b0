/**
 * What each seat is shown of the trump suit: the suit is public once
 * revealed, private to the bid winner before that, and hidden from everyone
 * else.
 */
module Visibility {
  import opened Wrappers
  import opened Seats
  import opened Cards
  import opened Auction

  /** The trump indicator: no trump chosen yet, public, private to the viewer, or a question mark. */
  datatype TrumpView = NoTrump | Revealed(suit: Suit) | Private(suit: Suit) | Hidden

  /** The observer is shown a suit. */
  predicate ShowsSuit(v: TrumpView)
  {
    v.Revealed? || v.Private?
  }

  /**
   * The decision inside `renderTrumpIcon`, for an arbitrary observing seat. A
   * seat is shown the trump exactly when a trump is chosen and it is either
   * revealed or the seat is the bid winner, and what it is shown is the real trump.
   */
  function VisibleTrump(trump: Option<Suit>, revealed: bool, bidWinner: Option<Bid>, observer: Seat): (v: TrumpView)
    ensures ShowsSuit(v) <==>
      trump.Some? && (revealed || (bidWinner.Some? && bidWinner.value.player == Some(observer)))
    ensures ShowsSuit(v) ==> trump == Some(v.suit)
    ensures v.Private? ==> !revealed
    ensures v.NoTrump? <==> trump.None?
  {
    if trump.None? then NoTrump
    else if revealed then Revealed(trump.value)
    else if bidWinner.Some? && bidWinner.value.player == Some(observer) then Private(trump.value)
    else Hidden
  }

  /** Before the reveal at most one seat (the bid winner) sees the trump; after it every seat sees the same thing. */
  lemma AtMostOneSeatSeesHiddenTrump(trump: Option<Suit>, revealed: bool, bidWinner: Option<Bid>, a: Seat, b: Seat)
    ensures !revealed && a != b ==>
      !(ShowsSuit(VisibleTrump(trump, revealed, bidWinner, a)) && ShowsSuit(VisibleTrump(trump, revealed, bidWinner, b)))
    ensures revealed ==> VisibleTrump(trump, revealed, bidWinner, a) == VisibleTrump(trump, revealed, bidWinner, b)
  {
  }
}

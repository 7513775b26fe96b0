/**
 * The auction: the running high bid, the count of consecutive non-raising
 * actions, and the two rules that close the auction (a contract after three
 * passes, a re-deal after four passes with no bidder).
 */
module Auction {
  import opened Wrappers
  import opened Seats

  /** A bid: who holds it (none for the opening floor) and how many tricks it contracts. */
  datatype Bid = Bid(player: Option<Seat>, amount: int)

  /** The floor every hand opens with: nobody holds it and 6 can never win. */
  const Floor: Bid := Bid(None, 6)

  /** `currentHighBid` and `consecutivePasses`. */
  datatype BidState = BidState(high: Bid, passes: nat)

  const Opening: BidState := BidState(Floor, 0)

  /** The high bid of a reachable auction: the untouched floor, or a real bid of at least 7. */
  predicate Consistent(st: BidState)
  {
    && (st.high.player.None? ==> st.high == Floor)
    && (st.high.player.Some? ==> st.high.amount >= 7)
  }

  /**
   * processBidTurn, first half: a strictly higher amount becomes the high bid
   * and resets the pass count; any other amount (0, or not above the high
   * bid) counts as one more pass.
   */
  function BidStep(st: BidState, player: Seat, amount: int): (r: BidState)
    ensures r.high.amount >= st.high.amount
    ensures r.high != st.high <==> amount > st.high.amount
    ensures r.high != st.high ==> r.high == Bid(Some(player), amount) && r.passes == 0
    ensures r.high == st.high ==> r.passes == st.passes + 1
    ensures Consistent(st) ==> Consistent(r)
  {
    if amount > st.high.amount then BidState(Bid(Some(player), amount), 0)
    else BidState(st.high, st.passes + 1)
  }

  /** What happens after an action: the auction closes on a contract, the hand is re-dealt, or the next seat bids. */
  datatype Verdict = Resolved(winner: Bid) | Redeal | Continue(next: Seat)

  /** processBidTurn, second half: the two closing rules, else rotation to the next seat. */
  function Decide(st: BidState, player: Seat): (v: Verdict)
    ensures v.Resolved? <==> st.passes >= 3 && st.high.player.Some?
    ensures v.Redeal? <==> st.passes >= 4 && st.high.player.None?
    ensures v.Resolved? ==> v.winner == st.high
    ensures v.Continue? ==> v.next == NextSeat(player)
  {
    if st.passes >= 3 && st.high.player.Some? then Resolved(st.high)
    else if st.passes >= 4 && st.high.player.None? then Redeal
    else Continue(NextSeat(player))
  }

  /** A contract always has a holder and is at least 7: the floor of 6 can never win. */
  lemma WinningBidAboveFloor(st: BidState, player: Seat, amount: int)
    requires Consistent(st)
    requires Decide(BidStep(st, player, amount), player).Resolved?
    ensures var w := Decide(BidStep(st, player, amount), player).winner;
      w.player.Some? && w.amount >= 7
  {
  }

  /**
   * The state after the actions `amounts`, made in turn by the seats
   * `first`, `first + 1`, ... (mod 4), each applied with `BidStep`.
   */
  function Run(st: BidState, first: Seat, amounts: seq<int>): BidState
  {
    if amounts == [] then st
    else
      var n := |amounts| - 1;
      BidStep(Run(st, first, amounts[..n]), (first + n) % 4, amounts[n])
  }

  /**
   * Over any sequence of actions, the high bid never falls below any amount
   * offered, and unless it is still the starting one it is the bid of some
   * action k, made by the seat whose turn k was, with an amount strictly
   * greater than every earlier action and than the starting high bid.
   */
  lemma {:induction false} RunHighBid(st: BidState, first: Seat, amounts: seq<int>)
    ensures var h := Run(st, first, amounts).high;
      && h.amount >= st.high.amount
      && (forall j :: 0 <= j < |amounts| ==> amounts[j] <= h.amount)
      && (h == st.high ||
          exists k :: 0 <= k < |amounts| && h == Bid(Some((first + k) % 4), amounts[k])
            && amounts[k] > st.high.amount
            && forall j :: 0 <= j < k ==> amounts[j] < amounts[k])
  {
    if amounts != [] {
      var n := |amounts| - 1;
      var prev := amounts[..n];
      RunHighBid(st, first, prev);
      var before := Run(st, first, prev);
      var h := Run(st, first, amounts).high;
      assert forall j :: 0 <= j < n ==> amounts[j] == prev[j];
      if h != before.high {
        assert h == Bid(Some((first + n) % 4), amounts[n]);
        assert forall j :: 0 <= j < n ==> amounts[j] < amounts[n];
      } else if h != st.high {
        var k :| 0 <= k < |prev| && before.high == Bid(Some((first + k) % 4), prev[k])
          && prev[k] > st.high.amount
          && forall j :: 0 <= j < k ==> prev[j] < prev[k];
        assert amounts[k] == prev[k];
      }
    }
  }
}

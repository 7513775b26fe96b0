/**
 * The four seats at the table (0 = South, the human seat; 1 = East;
 * 2 = North; 3 = West) and the two fixed partnerships.
 */
module Seats {
  type Seat = p: int | 0 <= p < 4

  /** Team 0 is South/North, team 1 is East/West. */
  type Team = t: int | 0 <= t < 2

  function TeamOf(p: Seat): (t: Team)
    ensures t == 0 <==> p % 2 == 0
  {
    if p == 0 || p == 2 then 0 else 1
  }

  /** The other team. */
  function Opponents(t: Team): (o: Team)
    ensures o != t
  {
    if t == 0 then 1 else 0
  }

  /** The seat across the table. */
  function Partner(p: Seat): (q: Seat)
    ensures q != p && TeamOf(q) == TeamOf(p)
    ensures (q + 2) % 4 == p
  {
    (p + 2) % 4
  }

  /** The seat that acts after `p`; play and bidding always pass to the other team. */
  function NextSeat(p: Seat): (q: Seat)
    ensures TeamOf(q) == Opponents(TeamOf(p))
  {
    (p + 1) % 4
  }
}

/**
 * Round scoring: a made contract earns 10 plus one per overtrick for the
 * bidding team; a failed contract moves the contract value from the bidding
 * team to the defenders.
 */
module Scoring {
  import opened Seats

  /** A per-team counter (`teamTricks`, `teamScores`): team 0 is South/North, team 1 East/West. */
  datatype Tally = Tally(ns: int, ew: int)
  {
    function Get(t: Team): int
    {
      if t == 0 then ns else ew
    }

    /** The tally with `d` added to team `t`'s counter and the other counter untouched. */
    function Add(t: Team, d: int): (r: Tally)
      ensures r.Get(t) == Get(t) + d
      ensures r.Get(Opponents(t)) == Get(Opponents(t))
      ensures r.ns + r.ew == ns + ew + d
    {
      if t == 0 then Tally(ns + d, ew) else Tally(ns, ew + d)
    }
  }

  const Zero: Tally := Tally(0, 0)

  /**
   * endRound: `bidder` won the auction with `contract`; `tricks` are the
   * tricks each team took this hand.
   */
  function ScoreRound(scores: Tally, bidder: Seat, contract: int, tricks: Tally): (r: Tally)
    ensures var bidTeam, defTeam, got := TeamOf(bidder), Opponents(TeamOf(bidder)), tricks.Get(TeamOf(bidder));
      && (got >= contract ==>
            r.Get(bidTeam) == scores.Get(bidTeam) + 10 + (got - contract)
            && r.Get(defTeam) == scores.Get(defTeam))
      && (got < contract ==>
            r.Get(bidTeam) == scores.Get(bidTeam) - contract
            && r.Get(defTeam) == scores.Get(defTeam) + contract
            && r.ns + r.ew == scores.ns + scores.ew)
  {
    var bidTeam := TeamOf(bidder);
    var defTeam := Opponents(bidTeam);
    var tricksGot := tricks.Get(bidTeam);
    if tricksGot >= contract then
      scores.Add(bidTeam, 10 + (tricksGot - contract))
    else
      scores.Add(bidTeam, -contract).Add(defTeam, contract)
  }

  /**
   * Taking more tricks never lowers the bidding team's new score, and the
   * defenders' new score never rises; making the contract always beats failing it.
   */
  lemma MoreTricksNeverHurt(scores: Tally, bidder: Seat, contract: nat, t1: Tally, t2: Tally)
    requires t1.Get(TeamOf(bidder)) <= t2.Get(TeamOf(bidder))
    ensures ScoreRound(scores, bidder, contract, t1).Get(TeamOf(bidder))
         <= ScoreRound(scores, bidder, contract, t2).Get(TeamOf(bidder))
    ensures ScoreRound(scores, bidder, contract, t1).Get(Opponents(TeamOf(bidder)))
         >= ScoreRound(scores, bidder, contract, t2).Get(Opponents(TeamOf(bidder)))
  {
  }
}

/** The rating tiers pinned down by `conditions/tests/test_scoring.py`: a
    score is bucketed at 0.8, 0.6 and 0.4, and without a slack window an
    excellent or good rating is capped to fair. */
module Rating {

  datatype Tier = Poor | Fair | Good | Excellent

  /** The order of the tiers, worst first. */
  function Rank(t: Tier): nat {
    match t
    case Poor => 0
    case Fair => 1
    case Good => 2
    case Excellent => 3
  }

  function TierOf(score: real): Tier {
    if score >= 0.8 then Excellent
    else if score >= 0.6 then Good
    else if score >= 0.4 then Fair
    else Poor
  }

  /** `_rating_from_score(score, slack_ok)`. */
  function RatingFromScore(score: real, slackOk: bool): (r: Tier)
    ensures slackOk ==> (r == Excellent <==> score >= 0.8)
    ensures slackOk ==> (r == Good <==> 0.6 <= score < 0.8)
    ensures slackOk ==> (r == Fair <==> 0.4 <= score < 0.6)
    ensures r == Poor <==> score < 0.4
    ensures !slackOk ==> (r == Fair <==> score >= 0.4)
    ensures !slackOk ==> r != Excellent && r != Good
  {
    var tier := TierOf(score);
    if !slackOk && (tier == Excellent || tier == Good) then Fair else tier
  }

  /** The cap never raises a rating, and it leaves fair and poor unchanged. */
  lemma CapNeverRaises(score: real)
    ensures Rank(RatingFromScore(score, false)) <= Rank(RatingFromScore(score, true))
    ensures RatingFromScore(score, true) in {Fair, Poor} ==>
      RatingFromScore(score, false) == RatingFromScore(score, true)
  {
  }

  /** A higher score never gives a lower rating. */
  lemma RatingMonotone(s1: real, s2: real, slackOk: bool)
    requires s1 <= s2
    ensures Rank(RatingFromScore(s1, slackOk)) <= Rank(RatingFromScore(s2, slackOk))
  {
  }

  /** The assertions of the two tests. */
  lemma TestVectors()
    ensures RatingFromScore(0.81, true) == Excellent && RatingFromScore(0.8, true) == Excellent
    ensures RatingFromScore(0.75, true) == Good && RatingFromScore(0.6, true) == Good
    ensures RatingFromScore(0.45, true) == Fair && RatingFromScore(0.4, true) == Fair
    ensures RatingFromScore(0.39, true) == Poor
    ensures RatingFromScore(0.95, false) == Fair && RatingFromScore(0.7, false) == Fair
    ensures RatingFromScore(0.45, false) == Fair && RatingFromScore(0.2, false) == Poor
  {
  }
}

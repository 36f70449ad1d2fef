/** The one risk classifier behind every 70/50 cut-off in the system: the risk
    scoring page's badge, the asset map's marker colours and badges, the
    high-risk zone listing and the dashboard's three zone counts. Consistency
    proves each of those sites equal to Classify. */
module RiskBands {

  datatype Band = Low | Medium | High

  /** Lowest score of the High band. */
  const HighFrom: int := 70
  /** Lowest score of the Medium band. */
  const MediumFrom: int := 50

  /** Closed lower bounds: at least 70 is High, 50 up to 70 is Medium, below 50 is Low. */
  function Classify(score: real): (b: Band)
    ensures b == High <==> score >= 70.0
    ensures b == Medium <==> 50.0 <= score < 70.0
    ensures b == Low <==> score < 50.0
  {
    if score >= HighFrom as real then High
    else if score >= MediumFrom as real then Medium
    else Low
  }

  /** The order of the bands, Low below Medium below High. */
  function Rank(b: Band): nat {
    match b
    case Low => 0
    case Medium => 1
    case High => 2
  }

  /** A higher score never lands in a lower band. */
  lemma ClassifyMonotone(x: real, y: real)
    requires x <= y
    ensures Rank(Classify(x)) <= Rank(Classify(y))
  {
  }
}

/** The parametric triggers page (alphaearth_frontend/src/pages/Triggers.tsx):
    the parameter icon, the progress towards the threshold, the
    near-threshold flag, the three-way status and the two summary counts.
    The page keeps no state; everything is computed from the fetched list,
    and every decision reads the stored `triggered` flag as sent. */
module Triggers {
  import opened Common
  import opened Models
  import opened Responses

  /** The list the page shows: the body normalized with the null guard. */
  function TriggerList(b: Body<TriggerRow>): (r: seq<TriggerRow>)
    ensures b.Null? ==> r == []
  {
    NormalizeGuarded(b)
  }

  datatype TriggerIcon = WindIcon | DropletsIcon | CloudRainIcon | ActivityIcon

  /** getIcon: case-sensitive substrings, checked as Wind, then Rain, then River. */
  function GetIcon(parameter: string): (r: TriggerIcon)
    ensures r == WindIcon <==> Contains(parameter, "Wind")
    ensures r == DropletsIcon <==> !Contains(parameter, "Wind") && Contains(parameter, "Rain")
    ensures r == CloudRainIcon <==> !Contains(parameter, "Wind") && !Contains(parameter, "Rain") &&
                                    Contains(parameter, "River")
  {
    if Contains(parameter, "Wind") then WindIcon
    else if Contains(parameter, "Rain") then DropletsIcon
    else if Contains(parameter, "River") then CloudRainIcon
    else ActivityIcon
  }

  /** getProgressValue: the current value as a percentage of the threshold,
      capped at 100 and not floored. */
  function GetProgressValue(current: real, threshold: real): (r: real)
    requires threshold > 0.0
    ensures r <= 100.0
    ensures current >= threshold ==> r == 100.0
    ensures current < threshold ==> r == current / threshold * 100.0 && r < 100.0
    ensures r >= 0.0 <==> current >= 0.0
  {
    var ratio := current / threshold * 100.0;
    if ratio <= 100.0 then ratio else 100.0
  }

  /** A progress of at least 90% is a reading of at least nine tenths of the threshold. */
  lemma ProgressAtLeastNinety(c: real, th: real)
    requires th > 0.0
    ensures GetProgressValue(c, th) >= 90.0 <==> c >= 9.0 / 10.0 * th
  {
    var q := c / th;
    assert q * th == c;
    if q >= 9.0 / 10.0 {
      assert (q - 9.0 / 10.0) * th >= 0.0;
    } else {
      assert (9.0 / 10.0 - q) * th > 0.0;
      assert (9.0 / 10.0 - q) * th == 9.0 / 10.0 * th - q * th;
      assert c < 9.0 / 10.0 * th < th;
      assert GetProgressValue(c, th) == q * 100.0 < 90.0;
    }
  }

  /** The near-threshold flag: a progress of at least 90% and not flagged,
      which is a reading of at least nine tenths of the threshold. */
  predicate IsNearThreshold(t: TriggerRow)
    requires t.threshold > 0.0
    ensures IsNearThreshold(t) <==> !t.triggered && t.current_value >= 9.0 / 10.0 * t.threshold
  {
    ProgressAtLeastNinety(t.current_value, t.threshold);
    GetProgressValue(t.current_value, t.threshold) >= 90.0 && !t.triggered
  }

  datatype TriggerStatus = ThresholdExceeded | ApproachingThreshold | WithinSafeRange

  function StatusText(s: TriggerStatus): string {
    match s
    case ThresholdExceeded => "Threshold Exceeded"
    case ApproachingThreshold => "Approaching Threshold"
    case WithinSafeRange => "Within Safe Range"
  }

  /** The status line of a trigger card: the flag first, then nearness. */
  function Status(t: TriggerRow): (s: TriggerStatus)
    requires t.threshold > 0.0
    ensures s == ThresholdExceeded <==> t.triggered
    ensures s == ApproachingThreshold <==> !t.triggered && IsNearThreshold(t)
    ensures s == WithinSafeRange <==> !t.triggered && !IsNearThreshold(t)
  {
    if t.triggered then ThresholdExceeded
    else if IsNearThreshold(t) then ApproachingThreshold
    else WithinSafeRange
  }

  /** A card carries the automatic-payout banner when its trigger is flagged. */
  predicate ShowsPayoutBanner(t: TriggerRow) { t.triggered }

  /** The payout banner appears on exactly the cards whose status reads
      Threshold Exceeded. */
  lemma PayoutBannerIsExceeded(t: TriggerRow)
    requires t.threshold > 0.0
    ensures ShowsPayoutBanner(t) <==> Status(t) == ThresholdExceeded
  {
  }

  predicate IsTriggered(t: TriggerRow) { t.triggered }
  predicate IsMonitoring(t: TriggerRow) { !t.triggered }

  /** "Triggers currently active": the number of flagged triggers. */
  function ActiveCount(ts: seq<TriggerRow>): (n: nat)
    ensures n == |Filter(ts, IsTriggered)|
  {
    CountIsFilterLength(ts, IsTriggered);
    Count(ts, IsTriggered)
  }

  /** "Triggers below threshold": the number of unflagged triggers. */
  function MonitoringCount(ts: seq<TriggerRow>): (n: nat)
    ensures n == |Filter(ts, IsMonitoring)|
  {
    CountIsFilterLength(ts, IsMonitoring);
    Count(ts, IsMonitoring)
  }

  /** Every trigger is counted on exactly one of the two summary cards. */
  lemma {:induction false} SummaryCountsAddUp(ts: seq<TriggerRow>)
    ensures ActiveCount(ts) + MonitoringCount(ts) == |ts|
  {
    if ts != [] {
      SummaryCountsAddUp(ts[1..]);
    }
  }

  /** The wind-speed trigger of the page's sample data: 160 against a threshold
      of 150 shows full progress and, flagged, the exceeded status. */
  lemma WindSpeedExample()
    ensures var t := TriggerRow("T01", "Wind Speed (km/h)", 150.0, 160.0, true, "Houston, TX");
      && GetProgressValue(t.current_value, t.threshold) == 100.0
      && Status(t) == ThresholdExceeded
      && GetIcon(t.parameter) == WindIcon
  {
    var p := "Wind Speed (km/h)";
    assert p[0..4] == "Wind";
    ContainsAt(p, "Wind", 0);
  }
}

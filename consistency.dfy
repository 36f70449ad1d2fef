/** Agreements between the places that restate one rule: every 70/50 cut-off
    against the one classifier, the two risk-score joins (backend serializer
    and asset map), the percentage the analysis stores against the score the
    claims page writes back, the upload the claims page builds against the
    backend's validator, and the trigger cards against the flag save derives. */
module Consistency {
  import opened Common
  import opened RiskBands
  import opened Models
  import Serializers
  import Views
  import RiskScoring
  import AssetMap
  import Triggers

  /** The badge colour of each band on the risk scoring page and in the asset list. */
  function BandBadge(b: Band): BadgeVariant {
    match b
    case High => DestructiveBadge
    case Medium => SecondaryBadge
    case Low => DefaultBadge
  }

  /** The marker colour of each band on the asset map. */
  function BandColor(b: Band): AssetMap.MarkerColor {
    match b
    case High => AssetMap.Red
    case Medium => AssetMap.Orange
    case Low => AssetMap.Green
  }

  /** The risk scoring page's level is the band of the score. */
  lemma RiskLevelIsBand(score: real)
    ensures RiskScoring.GetRiskLevel(score).color == BandBadge(Classify(score))
  {
  }

  /** Zone and asset markers are coloured by the band of the score. */
  lemma MarkerColorIsBand(score: int)
    ensures AssetMap.ScoreColor(score) == BandColor(Classify(score as real))
  {
  }

  /** The asset list's badge is the badge the risk scoring page shows for the same score. */
  lemma AssetBadgeIsRiskLevel(score: int)
    ensures AssetMap.AssetBadgeVariant(score) == RiskScoring.GetRiskLevel(score as real).color
  {
  }

  /** The dashboard's buckets and the high-risk listing are the three bands. */
  lemma ZoneBucketsAreBands(z: RiskZone)
    ensures Views.IsHighZone(z) <==> Classify(z.risk_score as real) == High
    ensures Views.IsMediumZone(z) <==> Classify(z.risk_score as real) == Medium
    ensures Views.IsLowZone(z) <==> Classify(z.risk_score as real) == Low
  {
  }

  /** The dashboard's three zone counts are the sizes of the High, Medium and
      Low bands of the zone table. */
  lemma DashboardZoneCountsAreBands(zones: seq<RiskZone>, claims: seq<InsuranceClaim>, triggers: seq<TriggerRow>)
    ensures var s := Views.GetDashboardStats(zones, claims, triggers);
      && s.high_risk_zones == |Filter(zones, (z: RiskZone) => Classify(z.risk_score as real) == High)|
      && s.medium_risk_zones == |Filter(zones, (z: RiskZone) => Classify(z.risk_score as real) == Medium)|
      && s.low_risk_zones == |Filter(zones, (z: RiskZone) => Classify(z.risk_score as real) == Low)|
  {
    FilterCongruent(zones, Views.IsHighZone, (z: RiskZone) => Classify(z.risk_score as real) == High);
    FilterCongruent(zones, Views.IsMediumZone, (z: RiskZone) => Classify(z.risk_score as real) == Medium);
    FilterCongruent(zones, Views.IsLowZone, (z: RiskZone) => Classify(z.risk_score as real) == Low);
  }

  /** The trigger page's "currently active" card shows the dashboard's
      active_triggers figure for the same trigger table. */
  lemma ActiveCountIsDashboardFigure(zones: seq<RiskZone>, claims: seq<InsuranceClaim>, triggers: seq<TriggerRow>)
    ensures Triggers.ActiveCount(triggers) == Views.GetDashboardStats(zones, claims, triggers).active_triggers
  {
    FilterCongruent(triggers, Triggers.IsTriggered, Views.IsActiveTrigger);
  }

  /** The map's lookup is the serializer's, with a missing zone read as 0. */
  lemma RiskJoinsAgree(zones: seq<RiskZone>, name: string)
    ensures AssetMap.GetRiskForLocation(zones, name) == Serializers.GetOr(Serializers.GetRiskScore(zones, name), 0)
  {
    match FirstIndex(zones, (z: RiskZone) => z.location_name, name)
    case None =>
    case Some(i) =>
      assert forall j :: 0 <= j < i ==> zones[j].location_name != name;
  }

  /** The percentage the analysis stores, divided by 100 as the claims page
      does, is the damage score again. */
  lemma PercentageRoundTrip(claim_id: string, damage: real)
    ensures Views.NewAnalysis(claim_id, damage).damage_percentage / 100.0 == damage
  {
  }

  /** The request the claims page builds for a stored claim passes the upload
      validator whenever both files are images and the location fits the
      field, and the validator reads back the claim's own disaster type. */
  lemma ClaimsRequestValidates(pre: Serializers.ImageFile, post: Serializers.ImageFile, c: InsuranceClaim)
    requires pre.is_image && post.is_image
    requires 0 < |Serializers.Strip(c.location_name)| <= Serializers.MaxLocationLength
    ensures var r := Serializers.ValidateUpload(Serializers.UploadRequest(Some(pre), Some(post), Some(c.location_name),
                                                                          Some(DisasterName(c.disaster_type))));
            r.Ok? && r.value.disaster_type == c.disaster_type
  {
    DisasterRoundTrip(c.disaster_type);
  }

  /** On a saved trigger the card's Threshold Exceeded status is exactly a
      reading at or over the threshold, and Approaching means a reading of at
      least 90% of the threshold but still below it. */
  lemma SavedTriggerStatus(t: TriggerRow)
    requires SavedFlag(t) && t.threshold > 0.0
    ensures Triggers.Status(t) == Triggers.ThresholdExceeded <==> t.current_value >= t.threshold
    ensures Triggers.Status(t) == Triggers.ApproachingThreshold ==>
              9.0 / 10.0 * t.threshold <= t.current_value < t.threshold
  {
  }

  /** The backend's by_location search over zones lists what the risk scoring
      page's search box shows for the same text. */
  lemma {:induction false} LocationSearchesAgree(zones: seq<RiskZone>, query: string)
    ensures Views.ByLocation(zones, (z: RiskZone) => z.location_name, query) == RiskScoring.SearchFilter(zones, query)
    decreases |zones|
  {
    if zones != [] {
      LocationSearchesAgree(zones[1..], query);
    }
  }
}

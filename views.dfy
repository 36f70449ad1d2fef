/** The backend's request handlers (alphaearth_backend/api/views.py): the
    listing actions and the dashboard counts, claim approval and rejection,
    the numeric part of damage scoring (per-class aggregation of detections,
    the presence-change ratio, the severity table and the weighted
    combination), claim creation from an upload, and the risk-assessment
    guards. The object detector, image decoding and the similarity fallback are
    inputs; random draws are parameters. */
module Views {
  import opened Common
  import opened Models
  import opened Serializers

  // ---------------------------------------------------------------------------
  // Zone bands as the queries write them
  // ---------------------------------------------------------------------------

  /** `risk_score__gte=70` */
  predicate IsHighZone(z: RiskZone) { z.risk_score >= 70 }
  /** `risk_score__gte=50, risk_score__lt=70` */
  predicate IsMediumZone(z: RiskZone) { z.risk_score >= 50 && z.risk_score < 70 }
  /** `risk_score__lt=50` */
  predicate IsLowZone(z: RiskZone) { z.risk_score < 50 }

  /** The high_risk listing: the zones scoring at least 70, in listing order. */
  function HighRiskZones(zones: seq<RiskZone>): (r: seq<RiskZone>)
    ensures forall z :: z in r <==> z in zones && z.risk_score >= 70
  {
    Filter(zones, IsHighZone)
  }

  // ---------------------------------------------------------------------------
  // Dashboard statistics
  // ---------------------------------------------------------------------------

  predicate IsApprovedClaim(c: InsuranceClaim) { c.claim_status == Approved }
  predicate IsPendingClaim(c: InsuranceClaim) { c.claim_status == Pending || c.claim_status == UnderReview }
  predicate IsActiveTrigger(t: TriggerRow) { t.triggered }

  /** The sum of the claim amounts; an empty table sums to 0, one claim sums to
      its own amount, and a table of non-negative amounts sums to a non-negative
      total. */
  function TotalClaimAmount(claims: seq<InsuranceClaim>): (total: real)
    ensures claims == [] ==> total == 0.0
    ensures |claims| == 1 ==> total == claims[0].claim_amount_usd
    ensures (forall c :: c in claims ==> c.claim_amount_usd >= 0.0) ==> total >= 0.0
  {
    if claims == [] then 0.0
    else
      assert forall c :: c in claims[1..] ==> c in claims;
      claims[0].claim_amount_usd + TotalClaimAmount(claims[1..])
  }

  /** The sum is additive: the total of two tables is the sum of their totals. */
  lemma {:induction false} TotalClaimAmountAppend(a: seq<InsuranceClaim>, b: seq<InsuranceClaim>)
    ensures TotalClaimAmount(a + b) == TotalClaimAmount(a) + TotalClaimAmount(b)
  {
    if a == [] {
      assert a + b == b;
    } else {
      assert (a + b)[1..] == a[1..] + b;
      TotalClaimAmountAppend(a[1..], b);
    }
  }

  datatype DashboardStats = DashboardStats(
    total_locations: nat,
    active_claims: nat,
    approved_claims: nat,
    pending_claims: nat,
    total_claim_amount: real,
    active_triggers: nat,
    high_risk_zones: nat,
    medium_risk_zones: nat,
    low_risk_zones: nat)

  /** The dashboard figures: the table sizes, each other count the length of the
      listing its query selects (the approved and pending claim listings, the
      active trigger listing, the high_risk listing and the medium and low
      bands as the queries bound them), and the total of the claim amounts. */
  function GetDashboardStats(zones: seq<RiskZone>, claims: seq<InsuranceClaim>, triggers: seq<TriggerRow>): (s: DashboardStats)
    ensures s.total_locations == |zones| && s.active_claims == |claims|
    ensures s.approved_claims == |ApprovedClaims(claims)| && s.pending_claims == |PendingClaims(claims)|
    ensures s.active_triggers == |ActiveTriggers(triggers)|
    ensures s.high_risk_zones == |HighRiskZones(zones)|
    ensures s.medium_risk_zones == |Filter(zones, IsMediumZone)|
    ensures s.low_risk_zones == |Filter(zones, IsLowZone)|
    ensures s.total_claim_amount == TotalClaimAmount(claims)
  {
    CountIsFilterLength(claims, IsApprovedClaim);
    CountIsFilterLength(claims, IsPendingClaim);
    CountIsFilterLength(triggers, IsActiveTrigger);
    CountIsFilterLength(zones, IsHighZone);
    CountIsFilterLength(zones, IsMediumZone);
    CountIsFilterLength(zones, IsLowZone);
    DashboardStats(
      |zones|,
      |claims|,
      Count(claims, IsApprovedClaim),
      Count(claims, IsPendingClaim),
      TotalClaimAmount(claims),
      Count(triggers, IsActiveTrigger),
      Count(zones, IsHighZone),
      Count(zones, IsMediumZone),
      Count(zones, IsLowZone))
  }

  /** Every zone is counted in exactly one band. */
  lemma DashboardZoneBucketsPartition(zones: seq<RiskZone>, claims: seq<InsuranceClaim>, triggers: seq<TriggerRow>)
    ensures var s := GetDashboardStats(zones, claims, triggers);
      s.high_risk_zones + s.medium_risk_zones + s.low_risk_zones == s.total_locations
  {
    CountPartition3(zones, IsHighZone, IsMediumZone, IsLowZone);
  }

  /** Approved and pending claims are disjoint, so together they are at most all claims. */
  lemma DashboardClaimCountsBounded(zones: seq<RiskZone>, claims: seq<InsuranceClaim>, triggers: seq<TriggerRow>)
    ensures var s := GetDashboardStats(zones, claims, triggers);
      s.approved_claims + s.pending_claims <= s.active_claims
  {
    CountDisjoint(claims, IsApprovedClaim, IsPendingClaim);
  }

  // ---------------------------------------------------------------------------
  // Listing actions
  // ---------------------------------------------------------------------------

  /** The approved listing of claims. */
  function ApprovedClaims(claims: seq<InsuranceClaim>): (r: seq<InsuranceClaim>)
    ensures forall c :: c in r <==> c in claims && c.claim_status == Approved
  {
    Filter(claims, IsApprovedClaim)
  }

  /** The pending listing: claims Pending or Under Review. */
  function PendingClaims(claims: seq<InsuranceClaim>): (r: seq<InsuranceClaim>)
    ensures forall c :: c in r <==> c in claims && (c.claim_status == Pending || c.claim_status == UnderReview)
  {
    Filter(claims, IsPendingClaim)
  }

  /** The active listing of triggers: those whose stored flag is set. */
  function ActiveTriggers(triggers: seq<TriggerRow>): (r: seq<TriggerRow>)
    ensures forall t :: t in r <==> t in triggers && t.triggered
  {
    Filter(triggers, IsActiveTrigger)
  }

  /** The by_location listings of zones, triggers and assets: the rows whose
      location name contains the `location` parameter ignoring case; a missing
      parameter reads as "" and keeps every row. */
  function ByLocation<T>(rows: seq<T>, name: T -> string, location: string): (r: seq<T>)
    ensures forall x :: x in r ==> x in rows && Contains(Lower(name(x)), Lower(location))
    ensures forall x :: x in rows && Contains(Lower(name(x)), Lower(location)) ==> x in r
  {
    Filter(rows, (x: T) => Contains(Lower(name(x)), Lower(location)))
  }

  /** Without a location parameter every row is listed. */
  lemma ByLocationWithoutParameter<T>(rows: seq<T>, name: T -> string)
    ensures ByLocation(rows, name, "") == rows
  {
    forall x | x in rows ensures Contains(Lower(name(x)), Lower("")) {
      EmptyIsContained(Lower(name(x)));
    }
    FilterAll(rows, (x: T) => Contains(Lower(name(x)), Lower("")));
  }

  // ---------------------------------------------------------------------------
  // approve / reject
  // ---------------------------------------------------------------------------

  datatype ClaimActionResponse = ClaimNotFound | ClaimUpdated(claim: InsuranceClaim)

  /** Overwrite the status of the claim with the given id and write it back. */
  method SetClaimStatus(db: Database, claim_id: string, status: ClaimStatus) returns (resp: ClaimActionResponse)
    requires db.Valid()
    modifies db`claims
    ensures db.Valid()
    ensures resp.ClaimNotFound? <==> forall j :: 0 <= j < |old(db.claims)| ==> old(db.claims)[j].claim_id != claim_id
    ensures resp.ClaimNotFound? ==> db.claims == old(db.claims)
    ensures resp.ClaimUpdated? ==>
              exists i :: (0 <= i < |old(db.claims)| && old(db.claims)[i].claim_id == claim_id &&
                           resp.claim == old(db.claims)[i].(claim_status := status) &&
                           db.claims == old(db.claims)[i := resp.claim])
  {
    match FirstIndex(db.claims, (c: InsuranceClaim) => c.claim_id, claim_id)
    case None =>
      resp := ClaimNotFound;
    case Some(i) =>
      var claim := db.claims[i].(claim_status := status);
      assert ValidClaim(db.claims[i]);
      UniqueKeysUpdate(db.claims, (c: InsuranceClaim) => c.claim_id, i, claim);
      db.claims := db.claims[i := claim];
      resp := ClaimUpdated(claim);
  }

  /** POST claims/{id}/approve/: the status becomes Approved; nothing else changes. */
  method Approve(db: Database, claim_id: string) returns (resp: ClaimActionResponse)
    requires db.Valid()
    modifies db`claims
    ensures db.Valid()
    ensures resp.ClaimNotFound? <==> forall j :: 0 <= j < |old(db.claims)| ==> old(db.claims)[j].claim_id != claim_id
    ensures resp.ClaimNotFound? ==> db.claims == old(db.claims)
    ensures resp.ClaimUpdated? ==>
              exists i :: (0 <= i < |old(db.claims)| && old(db.claims)[i].claim_id == claim_id &&
                           resp.claim == old(db.claims)[i].(claim_status := Approved) &&
                           db.claims == old(db.claims)[i := resp.claim])
  {
    resp := SetClaimStatus(db, claim_id, Approved);
  }

  /** POST claims/{id}/reject/: the status becomes Rejected; nothing else changes. */
  method Reject(db: Database, claim_id: string) returns (resp: ClaimActionResponse)
    requires db.Valid()
    modifies db`claims
    ensures db.Valid()
    ensures resp.ClaimNotFound? <==> forall j :: 0 <= j < |old(db.claims)| ==> old(db.claims)[j].claim_id != claim_id
    ensures resp.ClaimNotFound? ==> db.claims == old(db.claims)
    ensures resp.ClaimUpdated? ==>
              exists i :: (0 <= i < |old(db.claims)| && old(db.claims)[i].claim_id == claim_id &&
                           resp.claim == old(db.claims)[i].(claim_status := Rejected) &&
                           db.claims == old(db.claims)[i := resp.claim])
  {
    resp := SetClaimStatus(db, claim_id, Rejected);
  }

  // ---------------------------------------------------------------------------
  // Disaster severity
  // ---------------------------------------------------------------------------

  const DisasterSeverity: map<string, real> :=
    map["flood" := 0.7, "wildfire" := 0.8, "storm" := 0.6, "earthquake" := 0.9]

  /** Severity used when the lower-cased type is not in the table. */
  const UnknownSeverity: real := 0.5

  /** get_disaster_score: the table entry of the lower-cased type, 0.5 for any other type. */
  function GetDisasterScore(disaster_type: string): (r: real)
    ensures 0.5 <= r <= 0.9
    ensures r == UnknownSeverity <==> Lower(disaster_type) !in DisasterSeverity
  {
    var key := Lower(disaster_type);
    if key in DisasterSeverity then DisasterSeverity[key] else UnknownSeverity
  }

  /** The severity of each of the five disaster choices; Drought is not in the table. */
  lemma SeverityOfChoices()
    ensures GetDisasterScore(DisasterName(Flood)) == 0.7
    ensures GetDisasterScore(DisasterName(Wildfire)) == 0.8
    ensures GetDisasterScore(DisasterName(Storm)) == 0.6
    ensures GetDisasterScore(DisasterName(Earthquake)) == 0.9
    ensures GetDisasterScore(DisasterName(Drought)) == 0.5
  {
    assert Lower("Flood") == "flood";
    assert Lower("Wildfire") == "wildfire";
    assert Lower("Storm") == "storm";
    assert Lower("Earthquake") == "earthquake";
    assert Lower("Drought") == "drought";
  }

  // ---------------------------------------------------------------------------
  // Per-class aggregation of detections (analyze_image_objects_yolo)
  // ---------------------------------------------------------------------------

  /** One detected box: the detector's class name and its confidence. */
  datatype Box = Box(class_name: string, confidence: real)

  function MaxReal(a: real, b: real): real { if a >= b then a else b }
  function MinReal(a: real, b: real): real { if a <= b then a else b }

  /** The boxes of all results, result by result. */
  function Flatten(results: seq<seq<Box>>): seq<Box> {
    if results == [] then [] else Flatten(results[..|results| - 1]) + results[|results| - 1]
  }

  /** The dictionary the detection loop builds: each box raises the entry of its
      class to its confidence when that is larger than the entry (0 when absent). */
  function MaxConfidences(boxes: seq<Box>): map<string, real> {
    if boxes == [] then map[]
    else
      var m := MaxConfidences(boxes[..|boxes| - 1]);
      var b := boxes[|boxes| - 1];
      m[b.class_name := MaxReal(if b.class_name in m then m[b.class_name] else 0.0, b.confidence)]
  }

  /** The keys are exactly the detected classes, and each maps to the largest
      confidence seen for it, floored at 0. */
  lemma {:induction false} MaxConfidencesSpec(boxes: seq<Box>)
    ensures var m := MaxConfidences(boxes);
      && (forall n :: n in m <==> exists b :: b in boxes && b.class_name == n)
      && (forall b :: b in boxes ==> m[b.class_name] >= b.confidence)
      && (forall n :: n in m ==> m[n] >= 0.0)
      && (forall n :: n in m ==> m[n] == 0.0 || exists b :: b in boxes && b.class_name == n && b.confidence == m[n])
  {
    if boxes != [] {
      var init := boxes[..|boxes| - 1];
      MaxConfidencesSpec(init);
      assert boxes == init + [boxes[|boxes| - 1]];
    }
  }

  /** One more box updates the entry of its class and nothing else. */
  lemma MaxConfidencesAppend(boxes: seq<Box>, b: Box)
    ensures MaxConfidences(boxes + [b])
         == MaxConfidences(boxes)[b.class_name := MaxReal(if b.class_name in MaxConfidences(boxes) then MaxConfidences(boxes)[b.class_name] else 0.0, b.confidence)]
  {
    assert (boxes + [b])[..|boxes + [b]| - 1] == boxes;
  }

  /** One more result appends its boxes. */
  lemma FlattenPrefix(rs: seq<seq<Box>>, i: nat)
    requires i < |rs|
    ensures Flatten(rs[..i + 1]) == Flatten(rs[..i]) + rs[i]
  {
    assert rs[..i + 1][..i] == rs[..i];
  }

  /** analyze_image_objects_yolo: an image that does not decode (None) gives the
      empty dictionary; otherwise the loop over results and their boxes builds
      MaxConfidences of all boxes. */
  method AnalyzeImageObjects(results: Option<seq<seq<Box>>>) returns (objects: map<string, real>)
    ensures results.None? ==> objects == map[]
    ensures results.Some? ==> objects == MaxConfidences(Flatten(results.value))
  {
    objects := map[];
    if results.None? {
      return;
    }
    var rs := results.value;
    var i := 0;
    while i < |rs|
      invariant 0 <= i <= |rs|
      invariant objects == MaxConfidences(Flatten(rs[..i]))
    {
      var boxes := rs[i];
      var j := 0;
      assert Flatten(rs[..i]) + boxes[..0] == Flatten(rs[..i]);
      while j < |boxes|
        invariant 0 <= j <= |boxes|
        invariant objects == MaxConfidences(Flatten(rs[..i]) + boxes[..j])
      {
        var box := boxes[j];
        var previous := if box.class_name in objects then objects[box.class_name] else 0.0;
        objects := objects[box.class_name := MaxReal(previous, box.confidence)];
        assert Flatten(rs[..i]) + boxes[..j + 1] == (Flatten(rs[..i]) + boxes[..j]) + [box];
        MaxConfidencesAppend(Flatten(rs[..i]) + boxes[..j], box);
        j := j + 1;
      }
      FlattenPrefix(rs, i);
      assert boxes[..j] == boxes;
      i := i + 1;
    }
    assert rs[..i] == rs;
  }

  // ---------------------------------------------------------------------------
  // Presence comparison (compute_damage_score without the similarity fallback)
  // ---------------------------------------------------------------------------

  /** The classes present in exactly one of the two images. */
  function Changed(pre: set<string>, post: set<string>): set<string> {
    (pre - post) + (post - pre)
  }

  /** |classes in exactly one image| / |classes in either image|. */
  function ChangeRatio(pre: set<string>, post: set<string>): (r: real)
    requires pre + post != {}
    ensures 0.0 <= r <= 1.0
  {
    var c, u := Changed(pre, post), pre + post;
    SubsetCard(c, u);
    FractionInUnit(|c| as real, |u| as real);
    |c| as real / |u| as real
  }

  lemma {:induction false} SubsetCard<T>(a: set<T>, b: set<T>)
    requires a <= b
    ensures |a| <= |b|
    decreases |b|
  {
    if a != {} {
      var x :| x in a;
      SubsetCard(a - {x}, b - {x});
    }
  }

  lemma SubsetSameCardIsEqual<T>(a: set<T>, b: set<T>)
    requires a <= b && |a| == |b|
    ensures a == b
  {
    assert b == a + (b - a);
    assert |b - a| == 0;
  }

  lemma FractionIsOne(a: real, b: real)
    requires 0.0 < b
    ensures a / b == 1.0 <==> a == b
  {
    assert a / b * b == a;
  }

  lemma FractionInUnit(a: real, b: real)
    requires 0.0 <= a <= b && 0.0 < b
    ensures 0.0 <= a / b <= 1.0
  {
    assert a / b * b == a;
  }

  /** The ratio is 0 exactly when both images show the same classes. */
  lemma ChangeRatioZeroIffSame(pre: set<string>, post: set<string>)
    requires pre + post != {}
    ensures ChangeRatio(pre, post) == 0.0 <==> pre == post
  {
    if ChangeRatio(pre, post) == 0.0 {
      assert |Changed(pre, post)| == 0;
      forall x | x in pre ensures x in post { assert x !in Changed(pre, post); }
      forall x | x in post ensures x in pre { assert x !in Changed(pre, post); }
    }
  }

  /** The ratio is 1 exactly when no class appears in both images. */
  lemma ChangeRatioOneIffDisjoint(pre: set<string>, post: set<string>)
    requires pre + post != {}
    ensures ChangeRatio(pre, post) == 1.0 <==> pre * post == {}
  {
    var c, u := Changed(pre, post), pre + post;
    assert |u| > 0;
    FractionIsOne(|c| as real, |u| as real);
    if ChangeRatio(pre, post) == 1.0 {
      assert |c| == |u|;
      SubsetSameCardIsEqual(c, u);
      forall x | x in pre ensures x !in post { assert x in u; }
    }
    if pre * post == {} {
      assert c == u;
    }
  }

  /** What the image comparison yields: the similarity fallback (not modelled)
      when neither image shows any object, else the clamped presence ratio. */
  datatype ImageDamage = SimilarityFallback | ObjectChange(score: real)

  /** The counting loop of compute_damage_score: the number of classes present
      in exactly one of the two images. */
  method CountChanges(pre: set<string>, post: set<string>) returns (changes: nat)
    ensures changes == |Changed(pre, post)|
  {
    var all := pre + post;
    changes := 0;
    var remaining := all;
    ghost var seen: set<string> := {};
    ghost var counted: set<string> := {};
    while remaining != {}
      invariant seen <= all && remaining == all - seen
      invariant counted == Changed(pre, post) * seen
      invariant changes == |counted|
      decreases remaining
    {
      var obj :| obj in remaining;
      VisitStep(Changed(pre, post), seen, obj);
      if (obj in pre) != (obj in post) {
        counted := counted + {obj};
        changes := changes + 1;
      }
      seen := seen + {obj};
      remaining := remaining - {obj};
    }
    assert seen == all;
    assert Changed(pre, post) <= all;
    assert counted == Changed(pre, post);
  }

  /** Visiting one more element adds it to the counted part exactly when it is changed. */
  lemma VisitStep(changed: set<string>, seen: set<string>, obj: string)
    requires obj !in seen
    ensures obj in changed ==> changed * (seen + {obj}) == changed * seen + {obj} && obj !in changed * seen
    ensures obj !in changed ==> changed * (seen + {obj}) == changed * seen
  {
  }

  /** compute_damage_score without its similarity fallback: the classes in
      exactly one image over all classes seen, clamped into [0,1]. Its branch
      for an empty union cannot be taken after the fallback and is left out. */
  method ComputeDamageScore(pre: map<string, real>, post: map<string, real>) returns (r: ImageDamage)
    ensures r.SimilarityFallback? <==> pre == map[] && post == map[]
    ensures r.ObjectChange? ==> pre.Keys + post.Keys != {} && r.score == ChangeRatio(pre.Keys, post.Keys)
    ensures r.ObjectChange? ==> 0.0 <= r.score <= 1.0
  {
    if pre == map[] && post == map[] {
      return SimilarityFallback;
    }
    if pre != map[] {
      assert |pre.Keys| == |pre| > 0;
    } else {
      assert |post.Keys| == |post| > 0;
    }
    var changes := CountChanges(pre.Keys, post.Keys);
    var ratio := changes as real / |pre.Keys + post.Keys| as real;
    r := ObjectChange(MinReal(MaxReal(ratio, 0.0), 1.0));
  }

  // ---------------------------------------------------------------------------
  // Scoring
  // ---------------------------------------------------------------------------

  /** min(dryness + sea_level/5 + events/10, 3) / 3 */
  function LocationScore(vegetation_dryness: real, sea_level_rise_m: real, historical_events: int): (r: real)
    ensures r <= 1.0
    ensures vegetation_dryness >= 0.0 && sea_level_rise_m >= 0.0 && historical_events >= 0 ==> r >= 0.0
  {
    MinReal(vegetation_dryness + sea_level_rise_m / 5.0 + historical_events as real / 10.0, 3.0) / 3.0
  }

  /** 0.5 image + 0.3 severity + 0.2 location: with every part in [0,1] the
      weighted damage is in [0,1]. */
  function WeightedDamage(image_score: real, disaster_score: real, location_score: real): (r: real)
    ensures InUnit(image_score) && InUnit(disaster_score) && InUnit(location_score) ==> InUnit(r)
  {
    0.5 * image_score + 0.3 * disaster_score + 0.2 * location_score
  }

  /** The location metadata the view reads with defaults. The upload serializer
      declares none of these fields, so its validated data never holds them and
      the defaults are always used. */
  const DefaultDryness: real := 0.5
  const DefaultSeaLevelRise: real := 0.0
  const DefaultHistoricalEvents: int := 0

  /** The damage score the view computes for an upload with the given image score. */
  function DamageScore(image_score: real, disaster: DisasterType): (r: real)
    ensures InUnit(image_score) ==> InUnit(r)
  {
    WeightedDamage(image_score, GetDisasterScore(DisasterName(disaster)),
                   LocationScore(DefaultDryness, DefaultSeaLevelRise, DefaultHistoricalEvents))
  }

  /** A Drought claim (severity 0.5) with an image score of at most 1 never
      reaches the auto-approval score 0.7. */
  lemma DroughtNeverAutoApproved(image_score: real)
    requires image_score <= 1.0
    ensures DamageScore(image_score, Drought) < AutoApproveAt
  {
    SeverityOfChoices();
  }

  /** The exact cut-off for a Drought claim: it is auto-approved iff its image
      score is at least 31/30. Only the similarity fallback, `1 - ssim`, which
      goes up to 2, can give such a score. */
  lemma DroughtAutoApprovalCutoff(image_score: real)
    ensures DamageScore(image_score, Drought) >= AutoApproveAt <==> image_score >= 31.0 / 30.0
  {
    SeverityOfChoices();
  }

  /** An image score of 1.04, from two negatively correlated images without
      detections, gets a Drought claim auto-approved. */
  lemma DroughtApprovedFromFallback()
    ensures DamageScore(1.04, Drought) >= AutoApproveAt
  {
    DroughtAutoApprovalCutoff(1.04);
  }

  // ---------------------------------------------------------------------------
  // Claim creation (DamageAnalysisView.post)
  // ---------------------------------------------------------------------------

  /** "C" + (1000 + count + 1): a "C" and digits that read back as count + 1001,
      so different counts give different claim ids. */
  function ClaimNumber(count: nat): (r: string)
    ensures |r| >= 2 && r[0] == 'C' && AllDigits(r[1..])
    ensures ParseNat(r[1..]) == 1000 + count + 1
  {
    var digits := NatToString(1000 + count + 1);
    ParseNatToString(1000 + count + 1);
    assert ("C" + digits)[1..] == digits;
    "C" + digits
  }

  /** "P" + (5000 + count + 1): a "P" and digits that read back as count + 5001. */
  function PolicyNumber(count: nat): (r: string)
    ensures |r| >= 2 && r[0] == 'P' && AllDigits(r[1..])
    ensures ParseNat(r[1..]) == 5000 + count + 1
  {
    var digits := NatToString(5000 + count + 1);
    ParseNatToString(5000 + count + 1);
    assert ("P" + digits)[1..] == digits;
    "P" + digits
  }

  /** Area estimate cap, square metres. */
  const MaxAffectedArea: real := 5000.0
  /** The fixed confidence of the deterministic scoring. */
  const FixedConfidence: real := 0.9

  /** The claim the view creates for the `count`-th claim with the given damage score. */
  function NewClaim(count: nat, u: ValidatedUpload, damage: real): (c: InsuranceClaim)
    ensures c.claim_status == Approved <==> damage >= AutoApproveAt
    ensures c.claim_status == UnderReview <==> damage < AutoApproveAt
    ensures c.auto_approved <==> damage >= AutoApproveAt
    ensures c.claim_id == ClaimNumber(count) && c.policy_id == PolicyNumber(count)
    ensures c.location_name == u.location_name && c.disaster_type == u.disaster_type
    ensures c.damage_score == damage && c.claim_amount_usd == damage * MaxAffectedArea * 100.0
  {
    InsuranceClaim(
      ClaimNumber(count), PolicyNumber(count), u.location_name, u.disaster_type, damage,
      damage * MaxAffectedArea * 100.0,
      if damage >= AutoApproveAt then Approved else UnderReview,
      damage >= AutoApproveAt)
  }

  /** The analysis stored beside the claim. */
  function NewAnalysis(claim_id: string, damage: real): (a: DamageAnalysis)
    ensures a.claim_id == claim_id
    ensures a.damage_percentage == 100.0 * damage
    ensures a.affected_area_sqm == damage * MaxAffectedArea
    ensures InUnit(damage) ==> ValidAnalysis(a)
  {
    DamageAnalysis(claim_id, damage * 100.0, damage * MaxAffectedArea, FixedConfidence,
                   "Google Vision Object Comparator v1.0")
  }

  datatype AnalysisResponse =
    | UploadRejected(errors: seq<FieldError>)
    | ClaimIdTaken(claim_id: string)
    | AnalysisCreated(claim: InsuranceClaim, analysis: DamageAnalysis)

  /** The two `objects.create` calls: a valid claim with a new id and its valid
      analysis are appended to their tables. */
  method StoreClaimAndAnalysis(db: Database, claim: InsuranceClaim, analysis: DamageAnalysis)
    requires db.Valid() && ValidClaim(claim) && ValidAnalysis(analysis)
    requires forall j :: 0 <= j < |db.claims| ==> db.claims[j].claim_id != claim.claim_id
    modifies db`claims, db`analyses
    ensures db.Valid()
    ensures db.claims == old(db.claims) + [claim] && db.analyses == old(db.analyses) + [analysis]
  {
    UniqueKeysAppend(db.claims, (c: InsuranceClaim) => c.claim_id, claim);
    db.claims := db.claims + [claim];
    db.analyses := db.analyses + [analysis];
  }

  /** POST damage-analysis/: an invalid upload is answered 400; otherwise a claim
      and its analysis are created from the image score (the detector's output,
      taken as an input). A claim id that the count-based numbering has already
      used (after a deletion, say) violates the unique column and nothing is stored. */
  method DamageAnalysisPost(db: Database, u: UploadRequest, image_score: real) returns (resp: AnalysisResponse)
    requires db.Valid()
    requires InUnit(image_score)
    modifies db`claims, db`analyses
    ensures db.Valid()
    ensures resp.UploadRejected? <==> ValidateUpload(u).Err?
    ensures resp.ClaimIdTaken? <==>
              && ValidateUpload(u).Ok?
              && exists j :: 0 <= j < |old(db.claims)| && old(db.claims)[j].claim_id == ClaimNumber(|old(db.claims)|)
    ensures resp.ClaimIdTaken? ==> resp.claim_id == ClaimNumber(|old(db.claims)|)
    ensures !resp.AnalysisCreated? ==> db.claims == old(db.claims) && db.analyses == old(db.analyses)
    ensures resp.AnalysisCreated? ==>
              var v := ValidateUpload(u).value;
              var damage := DamageScore(image_score, v.disaster_type);
              && resp.claim == NewClaim(|old(db.claims)|, v, damage)
              && resp.analysis == NewAnalysis(resp.claim.claim_id, damage)
              && db.claims == old(db.claims) + [resp.claim]
              && db.analyses == old(db.analyses) + [resp.analysis]
  {
    var validation := ValidateUpload(u);
    if validation.Err? {
      return UploadRejected(validation.error);
    }
    var data := validation.value;
    var damage := DamageScore(image_score, data.disaster_type);
    var claim := NewClaim(|db.claims|, data, damage);
    if FirstIndex(db.claims, (c: InsuranceClaim) => c.claim_id, claim.claim_id).Some? {
      return ClaimIdTaken(claim.claim_id);
    }
    var analysis := NewAnalysis(claim.claim_id, damage);
    assert ValidClaim(claim) && ValidAnalysis(analysis);
    StoreClaimAndAnalysis(db, claim, analysis);
    resp := AnalysisCreated(claim, analysis);
  }

  // ---------------------------------------------------------------------------
  // Risk assessment (RiskAssessmentView.post)
  // ---------------------------------------------------------------------------

  /** The request body; absent keys are None. */
  datatype AssessmentRequest = AssessmentRequest(
    latitude: Option<real>,
    longitude: Option<real>,
    location_name: Option<string>)

  /** The random values the view draws for a new zone. */
  datatype Draws = Draws(
    flood_risk: real,
    wildfire_risk: real,
    storm_risk: real,
    vegetation_dryness: real,
    avg_temp_c: real,
    sea_level_rise_m: real,
    historical_events: int)

  /** The ranges the view draws from. */
  predicate DrawsInRange(d: Draws) {
    && 0.1 <= d.flood_risk <= 0.9 && 0.1 <= d.wildfire_risk <= 0.9 && 0.1 <= d.storm_risk <= 0.9
    && 0.1 <= d.vegetation_dryness <= 0.9
    && 15.0 <= d.avg_temp_c <= 35.0 && 0.0 <= d.sea_level_rise_m <= 0.5
    && 0 <= d.historical_events <= 20
  }

  const UnknownLocation: string := "Unknown Location"

  /** A coordinate counts as given only when present and not zero. */
  predicate Truthy(x: Option<real>) { x.Some? && x.value != 0.0 }

  /** Python's int() on a real: truncation toward zero. */
  function Truncate(x: real): (i: int)
    ensures 0.0 <= x ==> 0 <= i && i as real <= x < i as real + 1.0
    ensures x < 0.0 ==> i <= 0 && i as real - 1.0 < x <= i as real
  {
    if x >= 0.0 then x.Floor else -((-x).Floor)
  }

  /** int((flood + wildfire + storm) * 100 / 3) */
  function AssessedRiskScore(flood: real, wildfire: real, storm: real): (r: int)
    ensures InUnit(flood) && InUnit(wildfire) && InUnit(storm) ==> 0 <= r <= 100
  {
    Truncate((flood + wildfire + storm) * 100.0 / 3.0)
  }

  datatype Assessment = MissingCoordinates | ExistingZone(zone: RiskZone) | NewZone(zone: RiskZone)

  /** `RiskZone.objects.filter(location_name=name).first()`: the default
      ordering puts the highest risk score first, so the zone found is one of
      that name with the largest score. Among equal scores the database's order
      is unspecified; the model takes the earliest stored. */
  function HighestScoring(zones: seq<RiskZone>, name: string): (r: Option<RiskZone>)
    ensures r.None? <==> forall j :: 0 <= j < |zones| ==> zones[j].location_name != name
    ensures r.Some? ==> r.value in zones && r.value.location_name == name
    ensures r.Some? ==> forall j :: 0 <= j < |zones| && zones[j].location_name == name ==>
                          zones[j].risk_score <= r.value.risk_score
  {
    if zones == [] then None
    else
      var rest := HighestScoring(zones[1..], name);
      assert forall j :: 1 <= j < |zones| ==> zones[j] == zones[1..][j - 1];
      if zones[0].location_name != name then rest
      else if rest.Some? && rest.value.risk_score > zones[0].risk_score then rest
      else Some(zones[0])
  }

  /** On a listing already in the default order the highest-scoring zone has
      the score the asset serializer finds with its first match. */
  lemma HighestScoringOnListing(listing: seq<RiskZone>, name: string)
    requires OrderedByRiskDesc(listing)
    ensures HighestScoring(listing, name).None? <==> GetRiskScore(listing, name).None?
    ensures HighestScoring(listing, name).Some? ==>
              HighestScoring(listing, name).value.risk_score == GetRiskScore(listing, name).value
  {
    GetRiskScoreIsMaximum(listing, name);
    var h := HighestScoring(listing, name);
    if h.Some? {
      var j :| 0 <= j < |listing| && listing[j].location_name == name && listing[j].risk_score == GetRiskScore(listing, name).value;
      var k :| 0 <= k < |listing| && listing[k] == h.value;
      assert listing[k].location_name == name;
    }
  }

  /** The decision of the view: 400 when a coordinate is missing or zero; the
      highest-scoring stored zone of that name when there is one; otherwise a
      new zone built from the coordinates and the draws. */
  function Assess(zones: seq<RiskZone>, req: AssessmentRequest, d: Draws): (a: Assessment)
    ensures a.MissingCoordinates? <==> !Truthy(req.latitude) || !Truthy(req.longitude)
    ensures var name := if req.location_name.Some? then req.location_name.value else UnknownLocation;
      && (a.ExistingZone? <==> Truthy(req.latitude) && Truthy(req.longitude) &&
                               exists j :: 0 <= j < |zones| && zones[j].location_name == name)
      && (a.ExistingZone? ==> a.zone in zones && a.zone.location_name == name &&
                              forall j :: 0 <= j < |zones| && zones[j].location_name == name ==>
                                zones[j].risk_score <= a.zone.risk_score)
      && (a.NewZone? ==> a.zone == RiskZone(name, req.latitude.value, req.longitude.value,
                                            d.flood_risk, d.wildfire_risk, d.storm_risk, d.vegetation_dryness,
                                            d.avg_temp_c, d.sea_level_rise_m, d.historical_events,
                                            AssessedRiskScore(d.flood_risk, d.wildfire_risk, d.storm_risk)))
    ensures a.NewZone? && DrawsInRange(d) ==> ValidZone(a.zone)
  {
    var name := if req.location_name.Some? then req.location_name.value else UnknownLocation;
    if !Truthy(req.latitude) || !Truthy(req.longitude) then MissingCoordinates
    else
      match HighestScoring(zones, name)
      case Some(z) => ExistingZone(z)
      case None =>
        NewZone(RiskZone(name, req.latitude.value, req.longitude.value,
                         d.flood_risk, d.wildfire_risk, d.storm_risk, d.vegetation_dryness,
                         d.avg_temp_c, d.sea_level_rise_m, d.historical_events,
                         AssessedRiskScore(d.flood_risk, d.wildfire_risk, d.storm_risk)))
  }

  /** A zero latitude is treated like a missing one. */
  lemma ZeroCoordinateIsMissing(zones: seq<RiskZone>, req: AssessmentRequest, d: Draws)
    requires req.latitude == Some(0.0) || req.longitude == Some(0.0)
    ensures Assess(zones, req, d) == MissingCoordinates
  {
  }

  /** The view: only a new zone is stored. */
  method RiskAssessmentPost(db: Database, req: AssessmentRequest, d: Draws) returns (a: Assessment)
    requires db.Valid()
    requires DrawsInRange(d)
    modifies db`zones
    ensures db.Valid()
    ensures a == Assess(old(db.zones), req, d)
    ensures a.NewZone? ==> db.zones == old(db.zones) + [a.zone]
    ensures !a.NewZone? ==> db.zones == old(db.zones)
  {
    a := Assess(db.zones, req, d);
    if a.NewZone? {
      db.zones := db.zones + [a.zone];
    }
  }
}

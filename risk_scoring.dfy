/** The risk scoring page (alphaearth_frontend/src/pages/RiskScoring.tsx): the
    badge level of a score, the case-insensitive location search, the page
    state with its auto-selection effect, and the radar data and assessment
    notes of the selected zone. */
module RiskScoring {
  import opened Common
  import opened Models
  import opened Responses

  // ---------------------------------------------------------------------------
  // getRiskLevel
  // ---------------------------------------------------------------------------

  /** A badge: its text (the `label` of the source) and its variant. */
  datatype RiskLevel = RiskLevel(text: string, color: BadgeVariant)

  /** At least 70 is High Risk (destructive), at least 50 is Medium Risk
      (secondary), anything lower is Low Risk (default). */
  function GetRiskLevel(score: real): (r: RiskLevel)
    ensures r == RiskLevel("High Risk", DestructiveBadge) <==> score >= 70.0
    ensures r == RiskLevel("Medium Risk", SecondaryBadge) <==> 50.0 <= score < 70.0
    ensures r == RiskLevel("Low Risk", DefaultBadge) <==> score < 50.0
  {
    if score >= 70.0 then RiskLevel("High Risk", DestructiveBadge)
    else if score >= 50.0 then RiskLevel("Medium Risk", SecondaryBadge)
    else RiskLevel("Low Risk", DefaultBadge)
  }

  /** The badge colours in the order of the levels they show. */
  function Severity(color: BadgeVariant): nat {
    match color
    case DefaultBadge => 0
    case SecondaryBadge => 1
    case DestructiveBadge => 2
    case OutlineBadge => 0
  }

  /** A higher score never gets a lower level. */
  lemma GetRiskLevelMonotone(x: real, y: real)
    requires x <= y
    ensures Severity(GetRiskLevel(x).color) <= Severity(GetRiskLevel(y).color)
  {
  }

  // ---------------------------------------------------------------------------
  // Search filter
  // ---------------------------------------------------------------------------

  /** The lower-cased name contains the lower-cased query. */
  predicate MatchesQuery(query: string, z: RiskZone) {
    Contains(Lower(z.location_name), Lower(query))
  }

  /** The zones listed under the search box, in the order fetched. */
  function SearchFilter(zones: seq<RiskZone>, query: string): (r: seq<RiskZone>)
    ensures forall z :: z in r <==> z in zones && Contains(Lower(z.location_name), Lower(query))
    ensures |r| <= |zones|
  {
    Filter(zones, z => MatchesQuery(query, z))
  }

  /** The empty query (the initial state) lists every zone. */
  lemma EmptyQueryKeepsAll(zones: seq<RiskZone>)
    ensures SearchFilter(zones, "") == zones
  {
    forall z | z in zones ensures MatchesQuery("", z) {
      EmptyIsContained(Lower(z.location_name));
    }
    FilterAll(zones, z => MatchesQuery("", z));
  }

  /** The search ignores the case of the query. */
  lemma SearchIgnoresQueryCase(zones: seq<RiskZone>, query: string)
    ensures SearchFilter(zones, Lower(query)) == SearchFilter(zones, query)
  {
    LowerIdempotent(query);
    FilterCongruent(zones, z => MatchesQuery(Lower(query), z), z => MatchesQuery(query, z));
  }

  /** Typing a zone's full name, in any case, keeps that zone listed. */
  lemma FullNameIsFound(zones: seq<RiskZone>, z: RiskZone, query: string)
    requires z in zones && Lower(query) == Lower(z.location_name)
    ensures z in SearchFilter(zones, query)
  {
    var name := Lower(z.location_name);
    assert name[0..|name|] == name;
    ContainsAt(name, name, 0);
  }

  /** The filter keeps the fetched order: filtering two halves lists the first
      half's matches before the second's. */
  lemma SearchKeepsOrder(front: seq<RiskZone>, back: seq<RiskZone>, query: string)
    ensures SearchFilter(front + back, query) == SearchFilter(front, query) + SearchFilter(back, query)
  {
    FilterAppend(front, back, z => MatchesQuery(query, z));
  }

  // ---------------------------------------------------------------------------
  // Radar data and assessment notes
  // ---------------------------------------------------------------------------

  datatype RadarPoint = RadarPoint(factor: string, value: real)

  /** The four factors of the radar chart, as percentages, in chart order. */
  function RadarData(z: RiskZone): (r: seq<RadarPoint>)
    ensures |r| == 4
    ensures r[0].factor == "Flood" && r[1].factor == "Wildfire" && r[2].factor == "Storm" && r[3].factor == "Vegetation"
  {
    [RadarPoint("Flood", z.flood_risk * 100.0), RadarPoint("Wildfire", z.wildfire_risk * 100.0),
     RadarPoint("Storm", z.storm_risk * 100.0), RadarPoint("Vegetation", z.vegetation_dryness * 100.0)]
  }

  /** For a zone that passes its validators every radar value lies in the
      chart's 0..100 domain, and dividing by 100 gives back the stored factor. */
  lemma RadarDataInDomain(z: RiskZone)
    requires ValidZone(z)
    ensures forall p :: p in RadarData(z) ==> 0.0 <= p.value <= 100.0
    ensures RadarData(z)[0].value / 100.0 == z.flood_risk && RadarData(z)[1].value / 100.0 == z.wildfire_risk
    ensures RadarData(z)[2].value / 100.0 == z.storm_risk && RadarData(z)[3].value / 100.0 == z.vegetation_dryness
  {
  }

  const FloodNote: string := " Significant flood risk detected."
  const WildfireNote: string := " High wildfire probability."
  const StormNote: string := " Elevated storm activity expected."

  /** The notes appended to the AI assessment, flood, wildfire, storm in that order. */
  function AssessmentNotes(z: RiskZone): (r: seq<string>)
    ensures FloodNote in r <==> z.flood_risk > 0.7
    ensures WildfireNote in r <==> z.wildfire_risk > 0.7
    ensures StormNote in r <==> z.storm_risk > 0.7
    ensures |r| <= 3
  {
    (if z.flood_risk > 0.7 then [FloodNote] else [])
    + (if z.wildfire_risk > 0.7 then [WildfireNote] else [])
    + (if z.storm_risk > 0.7 then [StormNote] else [])
  }

  // ---------------------------------------------------------------------------
  // Page state
  // ---------------------------------------------------------------------------

  /** What the page shows once loading is over. */
  datatype Screen =
    | NoZones
    | NoSelection
    | Details(zone: RiskZone, level: RiskLevel, radar: seq<RadarPoint>, notes: seq<string>)

  class RiskScoringPage {
    var zones: seq<RiskZone>
    var searchQuery: string
    var selectedLocation: Option<RiskZone>

    /** Mounted: nothing fetched, empty query, nothing selected. */
    constructor ()
      ensures zones == [] && searchQuery == "" && selectedLocation == None
    {
      zones, searchQuery, selectedLocation := [], "", None;
    }

    /** The zones listed under the search box. */
    function Filtered(): (r: seq<RiskZone>)
      reads this
      ensures forall z :: z in r <==> z in zones && MatchesQuery(searchQuery, z)
    {
      SearchFilter(zones, searchQuery)
    }

    /** The screen the page renders for its current state. */
    function View(): (s: Screen)
      reads this
      ensures s.NoZones? <==> zones == []
      ensures s.NoSelection? <==> zones != [] && selectedLocation.None?
      ensures s.Details? ==> Some(s.zone) == selectedLocation && s.level == GetRiskLevel(s.zone.risk_score as real)
    {
      if zones == [] then NoZones
      else if selectedLocation.None? then NoSelection
      else
        var z := selectedLocation.value;
        Details(z, GetRiskLevel(z.risk_score as real), RadarData(z), AssessmentNotes(z))
    }

    /** The zone query settles: the fetched body becomes the zone list (a failed
        request lists none). */
    method ReceiveZones(response: Option<Body<RiskZone>>)
      modifies this`zones
      ensures zones == RiskScoringList(response)
    {
      zones := RiskScoringList(response);
    }

    /** The auto-selection effect: select the first zone only when there are
        zones and nothing is selected yet. */
    method AutoSelect()
      modifies this`selectedLocation
      ensures old(selectedLocation).Some? ==> selectedLocation == old(selectedLocation)
      ensures old(selectedLocation).None? && zones != [] ==> selectedLocation == Some(zones[0])
      ensures old(selectedLocation).None? && zones == [] ==> selectedLocation == None
      ensures zones != [] ==> View().Details?
    {
      if |zones| > 0 && selectedLocation.None? {
        selectedLocation := Some(zones[0]);
      }
    }

    /** Typing in the search box changes only the query. */
    method SetSearchQuery(query: string)
      modifies this`searchQuery
      ensures searchQuery == query
      ensures Filtered() == SearchFilter(zones, query)
    {
      searchQuery := query;
    }

    /** Clicking a listed zone selects it. */
    method Select(z: RiskZone)
      modifies this`selectedLocation
      ensures selectedLocation == Some(z)
      ensures zones != [] ==> View() == Details(z, GetRiskLevel(z.risk_score as real), RadarData(z), AssessmentNotes(z))
    {
      selectedLocation := Some(z);
    }
  }
}

/** The seeding command (alphaearth_backend/api/management/commands/seed_data.py):
    the city names collected from the storm-event rows, the fallback list and
    the gate that skips claim seeding, the zones, assets and triggers it
    creates with their counter-based ids, the event-type classifier, the
    damage-amount parser and the claim loop with its claim counter. The
    download and decompression of the CSV, the random draws and the console
    output are not modelled: the rows and the draws are parameters. */
module SeedData {
  import opened Common
  import opened Models

  /** The cities used when the CSV cannot be fetched or names no city. */
  const FallbackCities: seq<string> := [
    "New York, NY", "Los Angeles, CA", "Chicago, IL",
    "Houston, TX", "Miami, FL", "Seattle, WA",
    "Denver, CO", "Boston, MA", "Atlanta, GA"]

  const OwnerNames: seq<string> := ["Alice", "Bob", "Charlie", "David", "Eva", "Frank", "Grace", "Hannah", "Ivy", "Jack"]

  const Parameters: seq<string> := ["Temperature", "Rainfall", "Wind Speed", "Soil Moisture", "Sea Level"]

  predicate Distinct<T(==)>(xs: seq<T>) {
    forall i, j :: 0 <= i < j < |xs| ==> xs[i] != xs[j]
  }

  // ---------------------------------------------------------------------------
  // CSV rows and city names
  // ---------------------------------------------------------------------------

  /** A CSV row: column name to cell text. */
  type CsvRow = map<string, string>

  /** `row.get(key)` is truthy: the column is present and its cell is not empty. */
  predicate HasField(row: CsvRow, key: string) { key in row && row[key] != "" }

  /** The row names both a state and a county/zone. */
  predicate HasPlace(row: CsvRow) { HasField(row, "STATE") && HasField(row, "CZ_NAME") }

  /** "CZ_NAME, STATE" */
  function CityName(row: CsvRow): string
    requires HasPlace(row)
  {
    row["CZ_NAME"] + ", " + row["STATE"]
  }

  /** The set the city loop builds from the first `|rows|` rows. */
  function CitySet(rows: seq<CsvRow>): set<string>
    decreases |rows|
  {
    if rows == [] then {}
    else
      var last := rows[|rows| - 1];
      CitySet(rows[..|rows| - 1]) + (if HasPlace(last) then {CityName(last)} else {})
  }

  /** The cities are exactly the names of the rows that have both fields. */
  lemma {:induction false} CitySetMembers(rows: seq<CsvRow>, c: string)
    ensures c in CitySet(rows) <==> exists i :: 0 <= i < |rows| && HasPlace(rows[i]) && CityName(rows[i]) == c
    decreases |rows|
  {
    if rows != [] {
      var init := rows[..|rows| - 1];
      CitySetMembers(init, c);
      if exists i :: 0 <= i < |rows| && HasPlace(rows[i]) && CityName(rows[i]) == c {
        var i :| 0 <= i < |rows| && HasPlace(rows[i]) && CityName(rows[i]) == c;
        if i < |rows| - 1 {
          assert init[i] == rows[i];
        }
      }
      if c in CitySet(init) {
        var i :| 0 <= i < |init| && HasPlace(init[i]) && CityName(init[i]) == c;
        assert rows[i] == init[i];
      }
    }
  }

  /** The loop over the rows that collects the city set. */
  method CollectCities(rows: seq<CsvRow>) returns (cities: set<string>)
    ensures cities == CitySet(rows)
  {
    cities := {};
    var i := 0;
    while i < |rows|
      invariant 0 <= i <= |rows|
      invariant cities == CitySet(rows[..i])
    {
      assert rows[..i + 1][..i] == rows[..i];
      if HasPlace(rows[i]) {
        cities := cities + {CityName(rows[i])};
      }
      i := i + 1;
    }
    assert rows[..i] == rows;
  }

  /** The outcome of the download: failed, or the rows of the CSV. */
  datatype CityFetch = FetchFailed | Fetched(rows: seq<CsvRow>)

  /** `order` lists the set without repetition: Python's iteration order of the
      set, which the model takes as a parameter. */
  ghost predicate Enumerates(order: seq<string>, cities: set<string>) {
    Distinct(order) && forall c :: c in order <==> c in cities
  }

  /** The city list: the fetched cities in set order, or the fallback list when
      the download failed or named no city. */
  function Cities(fetch: CityFetch, order: seq<string>): (r: seq<string>)
    requires fetch.Fetched? ==> Enumerates(order, CitySet(fetch.rows))
    ensures Distinct(r) && r != []
    ensures fetch.FetchFailed? ==> r == FallbackCities
    ensures fetch.Fetched? && CitySet(fetch.rows) == {} ==> r == FallbackCities
    ensures fetch.Fetched? && CitySet(fetch.rows) != {} ==> r == order
    ensures forall c :: c in r ==> c in FallbackCities || (fetch.Fetched? && c in CitySet(fetch.rows))
  {
    if fetch.FetchFailed? || CitySet(fetch.rows) == {} then FallbackCities
    else
      var c :| c in CitySet(fetch.rows);
      assert c in order;
      order
  }

  /** Claims are seeded only when the city list is not the fallback list. */
  predicate ClaimsSeeded(fetch: CityFetch, order: seq<string>)
    requires fetch.Fetched? ==> Enumerates(order, CitySet(fetch.rows))
  {
    Cities(fetch, order) != FallbackCities
  }

  /** A failed download, or a CSV without any named place, seeds no claim. */
  lemma NoCsvNoClaims(fetch: CityFetch, order: seq<string>)
    requires fetch.Fetched? ==> Enumerates(order, CitySet(fetch.rows))
    requires fetch.FetchFailed? || forall i :: 0 <= i < |fetch.rows| ==> !HasPlace(fetch.rows[i])
    ensures !ClaimsSeeded(fetch, order)
  {
    if fetch.Fetched? && CitySet(fetch.rows) != {} {
      var c :| c in CitySet(fetch.rows);
      CitySetMembers(fetch.rows, c);
    }
  }

  // ---------------------------------------------------------------------------
  // Zones
  // ---------------------------------------------------------------------------

  /** The random values of one seeded zone. */
  datatype ZoneDraw = ZoneDraw(
    latitude: real, longitude: real,
    flood_risk: real, wildfire_risk: real, storm_risk: real, vegetation_dryness: real,
    avg_temp_c: real, risk_score: int)

  /** The ranges of the draws: uniform(-90, 90), uniform(-180, 180), random()
      for the four factors, uniform(10, 35), randint(0, 100). */
  predicate ZoneDrawInRange(d: ZoneDraw) {
    && -90.0 <= d.latitude <= 90.0 && -180.0 <= d.longitude <= 180.0
    && 0.0 <= d.flood_risk < 1.0 && 0.0 <= d.wildfire_risk < 1.0
    && 0.0 <= d.storm_risk < 1.0 && 0.0 <= d.vegetation_dryness < 1.0
    && 10.0 <= d.avg_temp_c <= 35.0 && 0 <= d.risk_score <= 100
  }

  /** A seeded zone; sea-level rise and the event count keep their defaults. */
  function SeedZone(name: string, d: ZoneDraw): (z: RiskZone)
    ensures z.location_name == name && z.sea_level_rise_m == 0.0 && z.historical_events == 0
    ensures ZoneDrawInRange(d) ==> ValidZone(z)
  {
    RiskZone(name, d.latitude, d.longitude, d.flood_risk, d.wildfire_risk, d.storm_risk,
             d.vegetation_dryness, d.avg_temp_c, 0.0, 0, d.risk_score)
  }

  /** The number of zones seeded from `n` cities: at most the first 10. */
  function ZoneCount(n: nat): (k: nat)
    ensures k <= 10 && k <= n
    ensures k == n || k == 10
  {
    if n < 10 then n else 10
  }

  /** The zone loop over `cities[:10]`. */
  method SeedZones(cities: seq<string>, draws: seq<ZoneDraw>) returns (zones: seq<RiskZone>)
    requires |draws| >= ZoneCount(|cities|)
    ensures |zones| == ZoneCount(|cities|)
    ensures forall k :: 0 <= k < |zones| ==> zones[k] == SeedZone(cities[k], draws[k])
    ensures (forall d :: d in draws ==> ZoneDrawInRange(d)) ==> forall z :: z in zones ==> ValidZone(z)
    ensures Distinct(cities) ==> UniqueKeys(zones, (z: RiskZone) => z.location_name)
  {
    zones := [];
    var i := 0;
    while i < ZoneCount(|cities|)
      invariant 0 <= i <= ZoneCount(|cities|)
      invariant |zones| == i
      invariant forall k :: 0 <= k < i ==> zones[k] == SeedZone(cities[k], draws[k])
    {
      zones := zones + [SeedZone(cities[i], draws[i])];
      i := i + 1;
    }
    if forall d :: d in draws ==> ZoneDrawInRange(d) {
      forall z | z in zones ensures ValidZone(z) {
        var k :| 0 <= k < |zones| && zones[k] == z;
        assert draws[k] in draws;
      }
    }
  }

  // ---------------------------------------------------------------------------
  // Assets and triggers: counter-based ids
  // ---------------------------------------------------------------------------

  /** f"A{i:03d}" */
  function AssetId(i: nat): string { "A" + ZeroPadded(i, 3) }
  /** f"T{i:03d}" */
  function TriggerId(i: nat): string { "T" + ZeroPadded(i, 3) }

  lemma PrefixedInjective(p: char, s: string, t: string)
    requires [p] + s == [p] + t
    ensures s == t
  {
    assert s == ([p] + s)[1..] && t == ([p] + t)[1..];
  }

  /** Different counters give different asset ids, each four characters long below 1000. */
  lemma AssetIdInjective(i: nat, j: nat)
    ensures AssetId(i) == AssetId(j) ==> i == j
    ensures i < 1000 ==> |AssetId(i)| == 4
  {
    if AssetId(i) == AssetId(j) {
      PrefixedInjective('A', ZeroPadded(i, 3), ZeroPadded(j, 3));
      ZeroPaddedInjective(i, j, 3);
    }
    if i < 1000 {
      NatToStringShort(i);
    }
  }

  lemma TriggerIdInjective(i: nat, j: nat)
    ensures TriggerId(i) == TriggerId(j) ==> i == j
  {
    if TriggerId(i) == TriggerId(j) {
      PrefixedInjective('T', ZeroPadded(i, 3), ZeroPadded(j, 3));
      ZeroPaddedInjective(i, j, 3);
    }
  }

  /** A number below 1000 prints in at most three digits. */
  lemma NatToStringShort(n: nat)
    requires n < 1000
    ensures |NatToString(n)| <= 3
  {
    if n >= 10 {
      assert |NatToString(n / 10)| <= 2 by {
        if n / 10 >= 10 {
          assert n / 100 < 10;
          assert NatToString(n / 10) == NatToString(n / 10 / 10) + [DigitChar(n / 10 % 10)];
        }
      }
    }
  }

  /** The random values of one seeded asset: indexes into the owner names and
      the city list, the type, and the insured value (randint(50 000, 5 000 000)). */
  datatype AssetDraw = AssetDraw(owner: nat, asset_type: AssetType, city: nat, insured_value: int)

  const SeededAssetCount: nat := 20

  /** The asset loop `for i in range(20)`: asset i has id A00i-style and is active. */
  method SeedAssets(cities: seq<string>, draws: seq<AssetDraw>) returns (assets: seq<Asset>)
    requires |draws| >= SeededAssetCount
    requires forall k :: 0 <= k < |draws| ==>
               draws[k].owner < |OwnerNames| && draws[k].city < |cities|
    ensures |assets| == SeededAssetCount
    ensures forall k :: 0 <= k < |assets| ==>
              && assets[k].asset_id == AssetId(k)
              && assets[k].owner == OwnerNames[draws[k].owner]
              && assets[k].asset_type == draws[k].asset_type
              && assets[k].location_name == cities[draws[k].city]
              && assets[k].insured_value_usd == draws[k].insured_value as real
              && assets[k].active
    ensures UniqueKeys(assets, (a: Asset) => a.asset_id)
  {
    assets := [];
    var i := 0;
    while i < SeededAssetCount
      invariant 0 <= i <= SeededAssetCount
      invariant |assets| == i
      invariant forall k :: 0 <= k < i ==>
                  assets[k] == Asset(AssetId(k), OwnerNames[draws[k].owner], draws[k].asset_type,
                                     cities[draws[k].city], draws[k].insured_value as real, true)
    {
      var d := draws[i];
      assets := assets + [Asset(AssetId(i), OwnerNames[d.owner], d.asset_type, cities[d.city], d.insured_value as real, true)];
      i := i + 1;
    }
    forall k, l | 0 <= k < l < |assets| ensures assets[k].asset_id != assets[l].asset_id {
      AssetIdInjective(k, l);
    }
  }

  /** The random values of one seeded trigger. */
  datatype TriggerDraw = TriggerDraw(parameter: nat, threshold: real, current_value: real, city: nat)

  const SeededTriggerCount: nat := 5

  /** The row the k-th seeded trigger is saved as, its flag derived by save. */
  function SeededTriggerRow(k: nat, d: TriggerDraw, cities: seq<string>): (t: TriggerRow)
    requires d.parameter < |Parameters| && d.city < |cities|
    ensures SavedFlag(t) && t.trigger_id == TriggerId(k)
  {
    TriggerRow(TriggerId(k), Parameters[d.parameter], d.threshold, d.current_value,
               d.current_value >= d.threshold, cities[d.city])
  }

  /** The trigger loop `for i in range(5)`: each trigger is created through
      its save, so every seeded flag is the derived one. */
  method SeedTriggers(db: Database, cities: seq<string>, draws: seq<TriggerDraw>)
    requires db.Valid() && db.triggers == []
    requires |draws| >= SeededTriggerCount
    requires forall k :: 0 <= k < |draws| ==> draws[k].parameter < |Parameters| && draws[k].city < |cities|
    modifies db`triggers
    ensures db.Valid()
    ensures |db.triggers| == SeededTriggerCount
    ensures forall k :: 0 <= k < |db.triggers| ==> db.triggers[k] == SeededTriggerRow(k, draws[k], cities)
  {
    var i := 0;
    while i < SeededTriggerCount
      invariant 0 <= i <= SeededTriggerCount
      invariant db.Valid()
      invariant |db.triggers| == i
      invariant forall k :: 0 <= k < i ==> db.triggers[k] == SeededTriggerRow(k, draws[k], cities)
    {
      var d := draws[i];
      var row := SeededTriggerRow(i, d, cities);
      var t := new ParametricTrigger(TriggerId(i), Parameters[d.parameter], d.threshold, d.current_value, cities[d.city]);
      forall j | 0 <= j < |db.triggers| ensures db.triggers[j].trigger_id != TriggerId(i) {
        TriggerIdInjective(j, i);
      }
      PersistedNew(db.triggers, row);
      ghost var before := db.triggers;
      var outcome := t.Save(db);
      assert t.Row() == row;
      assert db.triggers == before + [row];
      forall k | 0 <= k < i + 1 ensures db.triggers[k] == SeededTriggerRow(k, draws[k], cities) {
        if k < i {
          assert db.triggers[k] == before[k];
        }
      }
      i := i + 1;
    }
  }

  // ---------------------------------------------------------------------------
  // Event-type classification
  // ---------------------------------------------------------------------------

  /** The disaster of a storm-event row, from its lower-cased EVENT_TYPE:
      "flood" wins, then "wildfire" or "fire", then "storm", "tornado" or
      "hurricane"; any other event is skipped (None). */
  function ClassifyEvent(event_type: string): (r: Option<DisasterType>)
    ensures var e := Lower(event_type);
      && (r == Some(Flood) <==> Contains(e, "flood"))
      && (r == Some(Wildfire) <==> !Contains(e, "flood") && Contains(e, "fire"))
      && (r == Some(Storm) <==> !Contains(e, "flood") && !Contains(e, "fire") &&
                                (Contains(e, "storm") || Contains(e, "tornado") || Contains(e, "hurricane")))
      && r != Some(Earthquake) && r != Some(Drought)
  {
    var e := Lower(event_type);
    if Contains(e, "flood") then Some(Flood)
    else if Contains(e, "wildfire") || Contains(e, "fire") then
      (WildfireContainsFire(e); Some(Wildfire))
    else if Contains(e, "storm") || Contains(e, "tornado") || Contains(e, "hurricane") then Some(Storm)
    else None
  }

  /** Every text naming "wildfire" names "fire", so the wildfire test adds nothing. */
  lemma WildfireContainsFire(e: string)
    ensures Contains(e, "wildfire") ==> Contains(e, "fire")
  {
    if Contains(e, "wildfire") {
      var k := ContainsHasPosition(e, "wildfire");
      assert e[k + 4..k + 8] == e[k..k + 8][4..8] == "fire";
      ContainsAt(e, "fire", k + 4);
    }
  }

  /** A flash flood is a flood. */
  lemma FlashFloodIsFlood()
    ensures ClassifyEvent("Flash Flood") == Some(Flood)
  {
    var e := Lower("Flash Flood");
    assert e == "flash flood";
    assert e[6..11] == "flood";
    ContainsAt(e, "flood", 6);
  }

  /** A tornado is a storm. */
  lemma TornadoIsStorm()
    ensures ClassifyEvent("Tornado") == Some(Storm)
  {
    var e := Lower("Tornado");
    assert e == "tornado";
    NotContainedWithoutFirstChar(e, "flood");
    NotContainedWithoutFirstChar(e, "fire");
    ContainsAt(e, "tornado", 0);
  }

  /** Hail is none of the modelled disasters, so its rows are skipped. */
  lemma HailIsSkipped()
    ensures ClassifyEvent("Hail") == None
  {
    var e := Lower("Hail");
    assert e == "hail";
    NotContainedWithoutFirstChar(e, "flood");
    NotContainedWithoutFirstChar(e, "fire");
    NotContainedWithoutFirstChar(e, "storm");
    NotContainedWithoutFirstChar(e, "tornado");
    if Contains(e, "hurricane") {
      ContainsLength(e, "hurricane");
    }
  }

  // ---------------------------------------------------------------------------
  // DAMAGE_PROPERTY amounts
  // ---------------------------------------------------------------------------

  /** The value of the digits after a decimal point: 0.d1d2... = (d1 + 0.d2...) / 10. */
  function FractionValue(digits: string): (r: real)
    requires AllDigits(digits)
    ensures 0.0 <= r <= 1.0
  {
    if digits == [] then 0.0
    else ((digits[0] as int - '0' as int) as real + FractionValue(digits[1..])) / 10.0
  }

  /** 10 to the power n. */
  function Pow10(n: nat): (p: nat)
    ensures p >= 1
  {
    if n == 0 then 1 else 10 * Pow10(n - 1)
  }

  /** A leading digit counts for its value times 10 to the length of the rest. */
  lemma {:induction false} ParseNatCons(d: char, t: string)
    requires IsDigit(d) && AllDigits(t)
    ensures ParseNat([d] + t) == (d as int - '0' as int) * Pow10(|t|) + ParseNat(t)
    decreases |t|
  {
    var s := [d] + t;
    if t == [] {
      assert s[..0] == [];
    } else {
      var init, last := t[..|t| - 1], t[|t| - 1] as int - '0' as int;
      assert s[..|s| - 1] == [d] + init;
      assert s[|s| - 1] == t[|t| - 1];
      ParseNatCons(d, init);
      assert Pow10(|t|) == 10 * Pow10(|init|);
      AppendDigit(d as int - '0' as int, Pow10(|init|), ParseNat(init), last);
    }
  }

  /** Appending a digit multiplies the leading digit's weight by ten. */
  lemma AppendDigit(k: int, p: int, n: int, last: int)
    ensures (k * p + n) * 10 + last == k * (10 * p) + (n * 10 + last)
  {
  }

  /** (d + n/p) / 10 == (d·p + n) / (10·p) */
  lemma ShiftDigit(d: int, p: nat, n: nat)
    requires p >= 1
    ensures (d as real + n as real / p as real) / 10.0 == (d * p + n) as real / (10 * p) as real
  {
    var pr := p as real;
    assert (d * p + n) as real == d as real * pr + n as real;
    assert (10 * p) as real == 10.0 * pr;
    assert (d as real + n as real / pr) * pr == d as real * pr + n as real;
  }

  /** The digits after the point, read left to right, are their whole value
      over 10 to their length. */
  lemma {:induction false} FractionValueIsRatio(f: string)
    requires AllDigits(f)
    ensures FractionValue(f) == ParseNat(f) as real / Pow10(|f|) as real
    decreases |f|
  {
    if f != [] {
      var t := f[1..];
      FractionValueIsRatio(t);
      assert f == [f[0]] + t;
      ParseNatCons(f[0], t);
      assert Pow10(|f|) == 10 * Pow10(|t|);
      ShiftDigit(f[0] as int - '0' as int, Pow10(|t|), ParseNat(t));
    }
  }

  /** The position of the first point in s, if any. */
  function PointIndex(s: string): (r: Option<nat>)
    ensures r.Some? ==> r.value < |s| && s[r.value] == '.'
    ensures r.Some? ==> forall j :: 0 <= j < r.value ==> s[j] != '.'
    ensures r.None? <==> '.' !in s
  {
    if s == [] then None
    else if s[0] == '.' then Some(0)
    else
      match PointIndex(s[1..])
      case None => None
      case Some(i) => Some(i + 1)
  }

  /** A plain decimal: digits with at most one point and at least one digit
      ("12", "1.5", "1.", ".5"); anything else does not parse. */
  function ParseDecimal(s: string): (r: Option<real>)
    ensures r.Some? ==> r.value >= 0.0
  {
    match PointIndex(s)
    case None =>
      if s != [] && IsDigitString(s) then
        DigitStringIsAllDigits(s);
        Some(ParseNat(s) as real)
      else None
    case Some(i) =>
      var whole, fraction := s[..i], s[i + 1..];
      if (whole != [] || fraction != []) && IsDigitString(whole) && IsDigitString(fraction) then
        DigitStringIsAllDigits(whole);
        DigitStringIsAllDigits(fraction);
        Some(ParseNat(whole) as real + FractionValue(fraction))
      else None
  }

  /** Whether every character of s is a decimal digit, checked one character
      at a time. */
  predicate IsDigitString(s: string) {
    s == [] || (IsDigit(s[0]) && IsDigitString(s[1..]))
  }

  /** Checking one character at a time agrees with checking them all. */
  lemma {:induction false} DigitStringIsAllDigits(s: string)
    ensures IsDigitString(s) <==> AllDigits(s)
    decreases |s|
  {
    if s != [] {
      DigitStringIsAllDigits(s[1..]);
      assert forall i :: 1 <= i < |s| ==> s[i] == s[1..][i - 1];
    }
  }

  /** A digit string reads as the count it spells. */
  lemma ParseDecimalDigits(s: string)
    requires s != [] && AllDigits(s)
    ensures ParseDecimal(s) == Some(ParseNat(s) as real)
  {
    assert '.' !in s by {
      forall i | 0 <= i < |s| ensures s[i] != '.' {
        assert IsDigit(s[i]);
      }
    }
    DigitStringIsAllDigits(s);
  }

  /** Where the point of digits, a point and digits sits, and what lies on
      either side of it. */
  lemma PointPosition(w: string, f: string)
    requires AllDigits(w)
    ensures PointIndex(w + "." + f) == Some(|w|)
    ensures (w + "." + f)[..|w|] == w && (w + "." + f)[|w| + 1..] == f
  {
    var s := w + "." + f;
    assert s[|w|] == '.';
    forall j | 0 <= j < |w| ensures s[j] != '.' {
      assert s[j] == w[j];
    }
    assert s[..|w|] == w;
    assert s[|w| + 1..] == f;
  }

  /** The point branch of the parser, on the text before and after the first point. */
  lemma ParseDecimalSplit(s: string, i: nat)
    requires i < |s| && PointIndex(s) == Some(i)
    requires AllDigits(s[..i]) && AllDigits(s[i + 1..]) && |s| > 1
    ensures ParseDecimal(s) == Some(ParseNat(s[..i]) as real + FractionValue(s[i + 1..]))
  {
    DigitStringIsAllDigits(s[..i]);
    DigitStringIsAllDigits(s[i + 1..]);
  }

  /** The value of the decimal with whole digits w and fraction digits f. */
  function DecimalValue(w: string, f: string): real
    requires AllDigits(w) && AllDigits(f)
  {
    ParseNat(w) as real + FractionValue(f)
  }

  /** That value is w + f / 10^|f|. */
  lemma DecimalValueIsRatio(w: string, f: string)
    requires AllDigits(w) && AllDigits(f)
    ensures DecimalValue(w, f) == ParseNat(w) as real + ParseNat(f) as real / Pow10(|f|) as real
  {
    FractionValueIsRatio(f);
  }

  /** Digits, a point and digits read as the whole part plus the fraction. */
  lemma ParseDecimalPoint(w: string, f: string)
    requires AllDigits(w) && AllDigits(f) && (w != [] || f != [])
    ensures ParseDecimal(w + "." + f) == Some(DecimalValue(w, f))
  {
    PointPosition(w, f);
    ParseDecimalSplit(w + "." + f, |w|);
  }

  /** The cell with every "$" and "," dropped and every other character
      upper-cased, read character by character. */
  function CleanAmount(raw: string): (r: string)
    ensures |r| <= |raw|
  {
    if raw == [] then []
    else (if raw[0] == '$' || raw[0] == ',' then [] else [UpperChar(raw[0])]) + CleanAmount(raw[1..])
  }

  /** Upper-casing works character by character. */
  lemma UpperConcat(a: string, b: string)
    ensures Upper(a + b) == Upper(a) + Upper(b)
  {
    assert forall i :: 0 <= i < |a + b| ==> Upper(a + b)[i] == (Upper(a) + Upper(b))[i];
  }

  /** The one-pass cleaning is the cell's three string operations in the order
      written: "$" removed, then "," removed, then upper-cased. */
  lemma {:induction false} CleanAmountIsPipeline(raw: string)
    ensures CleanAmount(raw) == Upper(RemoveAll(RemoveAll(raw, '$'), ','))
    decreases |raw|
  {
    if raw != [] {
      var c, rest := raw[0], raw[1..];
      assert raw == [c] + rest;
      CleanAmountIsPipeline(rest);
      RemoveAllConcat([c], rest, '$');
      var a, b := RemoveAll([c], '$'), RemoveAll(rest, '$');
      RemoveAllConcat(a, b, ',');
      UpperConcat(RemoveAll(a, ','), RemoveAll(b, ','));
      assert [c][1..] == [];
      assert Upper([c]) == [UpperChar(c)];
    }
  }

  /** No "$" and no "," survive cleaning. */
  lemma {:induction false} CleanAmountDropsSeparators(raw: string)
    ensures '$' !in CleanAmount(raw) && ',' !in CleanAmount(raw)
    decreases |raw|
  {
    if raw != [] {
      CleanAmountDropsSeparators(raw[1..]);
    }
  }

  /** Cleaning works character by character ... */
  lemma {:induction false} CleanAmountConcat(a: string, b: string)
    ensures CleanAmount(a + b) == CleanAmount(a) + CleanAmount(b)
    decreases |a|
  {
    if a == [] {
      assert a + b == b;
    } else {
      assert (a + b)[0] == a[0] && (a + b)[1..] == a[1..] + b;
      CleanAmountConcat(a[1..], b);
    }
  }

  /** ... dropping "$" and "," and upper-casing every other character. */
  lemma CleanAmountChar(c: char)
    ensures CleanAmount([c]) == if c == '$' || c == ',' then [] else [UpperChar(c)]
  {
    assert [c][1..] == [];
  }

  /** A "$" or "," anywhere in the cell is ignored. */
  lemma CleanAmountDropsSeparator(a: string, c: char, b: string)
    requires c == '$' || c == ','
    ensures CleanAmount(a + [c] + b) == CleanAmount(a + b)
  {
    CleanAmountConcat(a + [c], b);
    CleanAmountConcat(a, [c]);
    CleanAmountChar(c);
    CleanAmountConcat(a, b);
  }

  /** A cell of digits, points and upper-case letters is already clean. */
  lemma {:induction false} CleanAmountKeeps(s: string)
    requires forall i :: 0 <= i < |s| ==> IsDigit(s[i]) || s[i] == '.' || 'A' <= s[i] <= 'Z'
    ensures CleanAmount(s) == s
    decreases |s|
  {
    if s != [] {
      CleanAmountKeeps(s[1..]);
      assert s == [s[0]] + s[1..];
    }
  }

  datatype SeedError = UnparsableAmount(text: string)

  /** The amount of a cell: its text is cleaned first and then read; the
      number read is multiplied by its unit. A text that cannot be read
      raises, quoting the raw cell. */
  function ParseDamage(raw: string): (r: Result<real, SeedError>)
    ensures r.Ok? ==> r.value >= 0.0
    ensures r.Err? ==> 'K' in CleanAmount(raw) || 'M' in CleanAmount(raw)
  {
    match ReadAmount(CleanAmount(raw))
    case None => Err(UnparsableAmount(raw))
    case Some(Reading(n, Ones)) => Ok(n)
    case Some(Reading(n, Thousands)) => Ok(n * 1000.0)
    case Some(Reading(n, Millions)) => Ok(n * 1000000.0)
  }

  /** The unit a cleaned text counts in. */
  datatype Unit = Ones | Thousands | Millions

  /** A cleaned text read as a number counted in a unit. */
  datatype Reading = Reading(number: real, unit: Unit)

  /** The reading of a cleaned text dmg: with a K anywhere, the rest (every K
      removed) in thousands; otherwise with an M, the rest in millions;
      otherwise the plain number, or 0 when it does not parse. None stands
      for a K or M amount whose rest does not parse. */
  function ReadAmount(dmg: string): (r: Option<Reading>)
    ensures r.Some? ==> r.value.number >= 0.0
    ensures r.None? ==> 'K' in dmg || 'M' in dmg
  {
    if 'K' in dmg then
      match ParseDecimal(RemoveAll(dmg, 'K'))
      case None => None
      case Some(v) => Some(Reading(v, Thousands))
    else if 'M' in dmg then
      match ParseDecimal(RemoveAll(dmg, 'M'))
      case None => None
      case Some(v) => Some(Reading(v, Millions))
    else
      match ParseDecimal(dmg)
      case None => Some(Reading(0.0, Ones))
      case Some(v) => Some(Reading(v, Ones))
  }

  lemma CleanDigits(s: string)
    requires AllDigits(s)
    ensures CleanAmount(s) == s
  {
    CleanAmountKeeps(s);
  }

  /** A plain count of dollars reads as its value. */
  lemma ParseDamagePlain(s: string)
    requires s != [] && AllDigits(s)
    ensures ParseDamage(s) == Ok(ParseNat(s) as real)
  {
    CleanDigits(s);
    assert 'K' !in s && 'M' !in s;
    ParseDecimalDigits(s);
  }

  /** Digits followed by one upper-case unit letter clean to themselves, and
      removing the unit leaves the digits, which parse as their value. */
  lemma DigitsWithUnit(s: string, u: char)
    requires s != [] && AllDigits(s) && 'A' <= u <= 'Z'
    ensures CleanAmount(s + [u]) == s + [u]
    ensures u in s + [u] && 'K' !in s && 'M' !in s
    ensures RemoveAll(s + [u], u) == s
    ensures ParseDecimal(s) == Some(ParseNat(s) as real)
  {
    var t := s + [u];
    CleanAmountKeeps(t);
    assert t[|t| - 1] == u;
    RemoveAllConcat(s, [u], u);
    assert u !in s;
    assert RemoveAll([u], u) == [];
    ParseDecimalDigits(s);
  }

  /** A text d followed by a unit letter that d lacks holds the unit, and
      removing the unit gives d back. */
  lemma UnitText(d: string, u: char)
    requires u !in d
    ensures u in d + [u] && RemoveAll(d + [u], u) == d
    ensures forall c :: c != u && c !in d ==> c !in d + [u]
  {
    var t := d + [u];
    assert t[|d|] == u;
    assert forall i :: 0 <= i < |d| ==> t[i] == d[i];
    RemoveAllConcat(d, [u], u);
    assert [u][1..] == [];
  }

  /** The K branch: a cleaned text t holding a K, whose rest (every K
      removed) is the decimal v, reads as v times 1000. */
  lemma ThousandsBranch(t: string, d: string, v: real)
    requires 'K' in t && RemoveAll(t, 'K') == d && ParseDecimal(d) == Some(v)
    ensures ReadAmount(t) == Some(Reading(v, Thousands))
  {
  }

  /** The M branch: a cleaned text t holding an M but no K, whose rest (every
      M removed) is the decimal v, reads as v times 1 000 000. */
  lemma MillionsBranch(t: string, d: string, v: real)
    requires 'K' !in t && 'M' in t && RemoveAll(t, 'M') == d && ParseDecimal(d) == Some(v)
    ensures ReadAmount(t) == Some(Reading(v, Millions))
  {
  }

  /** A count followed by K reads as that many thousands. */
  lemma ParseDamageThousands(s: string)
    requires s != [] && AllDigits(s)
    ensures ParseDamage(s + "K") == Ok(ParseNat(s) as real * 1000.0)
  {
    DigitsWithUnit(s, 'K');
    UnitText(s, 'K');
    ThousandsBranch(s + "K", s, ParseNat(s) as real);
  }

  /** A count followed by M reads as that many millions. */
  lemma ParseDamageMillions(s: string)
    requires s != [] && AllDigits(s)
    ensures ParseDamage(s + "M") == Ok(ParseNat(s) as real * 1000000.0)
  {
    DigitsWithUnit(s, 'M');
    UnitText(s, 'M');
    MillionsBranch(s + "M", s, ParseNat(s) as real);
  }

  /** The parser reads only the cleaned text: cells that clean alike read alike. */
  lemma ParseDamageReadsCleanText(a: string, b: string)
    requires CleanAmount(a) == CleanAmount(b)
    ensures ParseDamage(a).Ok? == ParseDamage(b).Ok?
    ensures ParseDamage(a).Ok? ==> ParseDamage(a).value == ParseDamage(b).value
  {
  }

  /** Digits, a point and digits followed by an upper-case letter are
      already clean. */
  lemma DecimalIsClean(w: string, f: string, u: char)
    requires AllDigits(w) && AllDigits(f) && 'A' <= u <= 'Z'
    ensures CleanAmount(w + "." + f + [u]) == w + "." + f + [u]
  {
    CleanAmountConcat(w + "." + f, [u]);
    CleanAmountConcat(w + ".", f);
    CleanAmountConcat(w, ".");
    CleanDigits(w);
    CleanDigits(f);
    CleanAmountChar('.');
    CleanAmountChar(u);
  }

  /** Digits, a point and digits hold no unit letter. */
  lemma DecimalHasNoUnit(w: string, f: string)
    requires AllDigits(w) && AllDigits(f)
    ensures 'K' !in w + "." + f && 'M' !in w + "." + f
  {
    var d := w + "." + f;
    forall i | 0 <= i < |d| ensures d[i] != 'K' && d[i] != 'M' {
      if i < |w| {
        assert d[i] == w[i];
      } else if i > |w| {
        assert d[i] == f[i - |w| - 1];
      }
    }
  }

  /** The cleaned text of a decimal followed by K reads as that many thousands. */
  lemma ReadDecimalThousands(w: string, f: string)
    requires AllDigits(w) && AllDigits(f) && (w != [] || f != [])
    ensures ReadAmount(w + "." + f + "K") == Some(Reading(DecimalValue(w, f), Thousands))
  {
    DecimalHasNoUnit(w, f);
    UnitText(w + "." + f, 'K');
    ParseDecimalPoint(w, f);
    ThousandsBranch(w + "." + f + "K", w + "." + f, DecimalValue(w, f));
  }

  /** The cleaned text of a decimal followed by M reads as that many millions. */
  lemma ReadDecimalMillions(w: string, f: string)
    requires AllDigits(w) && AllDigits(f) && (w != [] || f != [])
    ensures ReadAmount(w + "." + f + "M") == Some(Reading(DecimalValue(w, f), Millions))
  {
    DecimalHasNoUnit(w, f);
    UnitText(w + "." + f, 'M');
    ParseDecimalPoint(w, f);
    MillionsBranch(w + "." + f + "M", w + "." + f, DecimalValue(w, f));
  }

  /** A cell whose cleaned text reads as v thousands is worth v * 1000. */
  lemma ParseDamageOfThousands(raw: string, v: real)
    requires ReadAmount(CleanAmount(raw)) == Some(Reading(v, Thousands))
    ensures ParseDamage(raw) == Ok(v * 1000.0)
  {
  }

  /** A cell whose cleaned text reads as v millions is worth v * 1 000 000. */
  lemma ParseDamageOfMillions(raw: string, v: real)
    requires ReadAmount(CleanAmount(raw)) == Some(Reading(v, Millions))
    ensures ParseDamage(raw) == Ok(v * 1000000.0)
  {
  }

  /** A decimal followed by K reads as that many thousands. */
  lemma ParseDamageDecimalThousands(w: string, f: string)
    requires AllDigits(w) && AllDigits(f) && (w != [] || f != [])
    ensures ParseDamage(w + "." + f + "K") == Ok(DecimalValue(w, f) * 1000.0)
  {
    var t := w + "." + f + "K";
    assert ReadAmount(CleanAmount(t)) == Some(Reading(DecimalValue(w, f), Thousands)) by {
      DecimalIsClean(w, f, 'K');
      ReadDecimalThousands(w, f);
    }
    ParseDamageOfThousands(t, DecimalValue(w, f));
  }

  /** A decimal followed by M reads as that many millions. */
  lemma ParseDamageDecimalMillions(w: string, f: string)
    requires AllDigits(w) && AllDigits(f) && (w != [] || f != [])
    ensures ParseDamage(w + "." + f + "M") == Ok(DecimalValue(w, f) * 1000000.0)
  {
    var t := w + "." + f + "M";
    assert ReadAmount(CleanAmount(t)) == Some(Reading(DecimalValue(w, f), Millions)) by {
      DecimalIsClean(w, f, 'M');
      ReadDecimalMillions(w, f);
    }
    ParseDamageOfMillions(t, DecimalValue(w, f));
  }

  /** Separators are read through: a cell reads as its text with one "$" or ","
      taken out. */
  lemma ParseDamageDropsSeparator(a: string, c: char, b: string)
    requires c == '$' || c == ','
    ensures ParseDamage(a + [c] + b).Ok? <==> ParseDamage(a + b).Ok?
    ensures ParseDamage(a + [c] + b).Ok? ==> ParseDamage(a + [c] + b) == ParseDamage(a + b)
  {
    CleanAmountDropsSeparator(a, c, b);
    ParseDamageReadsCleanText(a + [c] + b, a + b);
  }

  /** A lower-case unit reads as the upper-case one. */
  lemma ParseDamageLowerUnit(a: string, u: char)
    requires u == 'k' || u == 'm'
    ensures ParseDamage(a + [u]).Ok? <==> ParseDamage(a + [UpperChar(u)]).Ok?
    ensures ParseDamage(a + [u]).Ok? ==> ParseDamage(a + [u]) == ParseDamage(a + [UpperChar(u)])
  {
    CleanAmountConcat(a, [u]);
    CleanAmountChar(u);
    CleanAmountConcat(a, [UpperChar(u)]);
    CleanAmountChar(UpperChar(u));
    ParseDamageReadsCleanText(a + [u], a + [UpperChar(u)]);
  }

  /** "1.5" is one and a half. */
  lemma DecimalOneAndHalf()
    ensures DecimalValue("1", "5") == 1.5
  {
    assert "5"[1..] == [];
  }

  /** "2.50" is two and a half. */
  lemma DecimalTwoAndHalf()
    ensures DecimalValue("2", "50") == 2.5
  {
    assert "50"[1..] == "0" && "0"[1..] == [];
  }

  /** "$1.5K" is 1500. */
  lemma ParseDamageDollarThousands()
    ensures ParseDamage("$1.5K") == Ok(1500.0)
  {
    var t := "1" + "." + "5" + "K";
    ParseDamageDropsSeparator([], '$', t);
    ParseDamageDecimalThousands("1", "5");
    DecimalOneAndHalf();
    assert [] + ['$'] + t == "$1.5K" && [] + t == t;
  }

  /** A count written with a dollar sign and a thousands separator reads as
      the count without them. */
  lemma ParseDamageDollarSeparated(a: string, b: string)
    requires a != [] && AllDigits(a) && AllDigits(b)
    ensures ParseDamage("$" + a + "," + b) == Ok(ParseNat(a + b) as real)
  {
    var t := a + [','] + b;
    assert ParseDamage(a + b) == Ok(ParseNat(a + b) as real) by {
      assert forall i :: 0 <= i < |a| ==> (a + b)[i] == a[i];
      assert forall i :: |a| <= i < |a + b| ==> (a + b)[i] == b[i - |a|];
      ParseDamagePlain(a + b);
    }
    assert ParseDamage(t) == ParseDamage(a + b) by {
      ParseDamageDropsSeparator(a, ',', b);
    }
    assert "$" + a + "," + b == [] + ['$'] + t && [] + t == t;
    ParseDamageDropsSeparator([], '$', t);
  }

  /** A decimal followed by a lower-case m reads as that many millions. */
  lemma ParseDamageDecimalLowerMillions(w: string, f: string)
    requires AllDigits(w) && AllDigits(f) && (w != [] || f != [])
    ensures ParseDamage(w + "." + f + "m") == Ok(DecimalValue(w, f) * 1000000.0)
  {
    var d := w + "." + f;
    ParseDamageLowerUnit(d, 'm');
    ParseDamageDecimalMillions(w, f);
    assert d + ['M'] == w + "." + f + "M" && d + ['m'] == w + "." + f + "m";
  }

  /** "1500" is fifteen hundred. */
  lemma FifteenHundred()
    ensures ParseNat("1500") == 1500
  {
    assert "1500"[..3] == "150" && "150"[..2] == "15" && "15"[..1] == "1";
  }

  /** "$1,500" is 1500. */
  lemma ParseDamageSeparator()
    ensures ParseDamage("$1,500") == Ok(1500.0)
  {
    ParseDamageDollarSeparated("1", "500");
    FifteenHundred();
    assert "$" + "1" + "," + "500" == "$1,500" && "1" + "500" == "1500";
  }

  /** "2.50m" is 2 500 000. */
  lemma ParseDamageLowerMillions()
    ensures ParseDamage("2.50m") == Ok(2500000.0)
  {
    ParseDamageDecimalLowerMillions("2", "50");
    DecimalTwoAndHalf();
    assert "2" + "." + "50" + "m" == "2.50m";
  }

  /** A bare "K" raises, while a billions amount such as "2B" silently reads as 0. */
  lemma ParseDamageEdges()
    ensures ParseDamage("K").Err?
    ensures ParseDamage("2B") == Ok(0.0)
  {
    assert CleanAmount("K") == "K";
    assert RemoveAll("K", 'K') == "";
    assert CleanAmount("2B") == "2B";
    assert !AllDigits("2B") by { assert !IsDigit("2B"[1]); }
  }

  /** damage_score = min(amount / 1 000 000, 1.0). */
  function DamageScoreOf(amount: real): (r: real)
    ensures r <= 1.0
    ensures amount >= 0.0 ==> InUnit(r)
    ensures amount >= 1000000.0 ==> r == 1.0
    ensures amount < 1000000.0 ==> r * 1000000.0 == amount
  {
    var ratio := amount / 1000000.0;
    if ratio <= 1.0 then ratio else 1.0
  }

  // ---------------------------------------------------------------------------
  // The claim loop
  // ---------------------------------------------------------------------------

  /** The random values of one written claim: an index into the assets and a status. */
  datatype ClaimDraw = ClaimDraw(asset: nat, status: ClaimStatus)

  predicate DrawsFit(assets: seq<Asset>, draws: seq<ClaimDraw>) {
    forall d :: d in draws ==> d.asset < |assets|
  }

  /** f"C{claim_idx:06d}" */
  function ClaimId(idx: nat): string { "C" + ZeroPadded(idx, 6) }

  lemma ClaimIdInjective(i: nat, j: nat)
    ensures ClaimId(i) == ClaimId(j) ==> i == j
  {
    if ClaimId(i) == ClaimId(j) {
      PrefixedInjective('C', ZeroPadded(i, 6), ZeroPadded(j, 6));
      ZeroPaddedInjective(i, j, 6);
    }
  }

  function EventType(row: CsvRow): string { if "EVENT_TYPE" in row then row["EVENT_TYPE"] else "" }
  function DamageText(row: CsvRow): string { if "DAMAGE_PROPERTY" in row then row["DAMAGE_PROPERTY"] else "0" }

  /** What one row of the CSV amounts to: skipped, ending the command with an
      error, or a claim for a disaster, an amount and a place. */
  datatype Outcome = SkipRow | RaiseRow(error: SeedError) | ClaimRow(disaster: DisasterType, amount: real, location: string)

  /** The body of the row loop up to the write: classify the event, skip rows
      without a place, parse the damage amount. */
  function RowOutcome(row: CsvRow): (o: Outcome)
    ensures o.ClaimRow? ==> && ClassifyEvent(EventType(row)) == Some(o.disaster) && HasPlace(row)
                            && o.location == CityName(row) && o.amount >= 0.0
    ensures o.RaiseRow? ==> ClassifyEvent(EventType(row)).Some? && HasPlace(row)
    ensures ClassifyEvent(EventType(row)).None? || !HasPlace(row) ==> o.SkipRow?
  {
    match ClassifyEvent(EventType(row))
    case None => SkipRow
    case Some(disaster) =>
      if !HasPlace(row) then SkipRow
      else
        match ParseDamage(DamageText(row))
        case Err(e) => RaiseRow(e)
        case Ok(amount) => ClaimRow(disaster, amount, CityName(row))
  }

  function Outcomes(rows: seq<CsvRow>): (os: seq<Outcome>)
    ensures |os| == |rows| && forall i :: 0 <= i < |rows| ==> os[i] == RowOutcome(rows[i])
  {
    seq(|rows|, i requires 0 <= i < |rows| => RowOutcome(rows[i]))
  }

  /** The claim written for a claim row under the id `id`. */
  function ClaimOf(o: Outcome, assets: seq<Asset>, draw: ClaimDraw, id: string): (c: InsuranceClaim)
    requires o.ClaimRow? && draw.asset < |assets|
    ensures c.claim_id == id && !c.auto_approved
    ensures c.policy_id == assets[draw.asset].asset_id && c.claim_status == draw.status
    ensures o.amount >= 0.0 ==> ValidClaim(c)
  {
    InsuranceClaim(id, assets[draw.asset].asset_id, o.location, o.disaster,
                   DamageScoreOf(o.amount), o.amount, draw.status, false)
  }

  /** The ids the counter hands out, in order: C000001, C000002, ... */
  function ClaimIds(n: nat): (ids: seq<string>)
    ensures |ids| == n && forall k :: 0 <= k < n ==> ids[k] == ClaimId(k + 1)
  {
    seq(n, k requires 0 <= k < n => ClaimId(k + 1))
  }

  /** What the loop needs besides the rows: a draw and an id for every claim it may write. */
  predicate Supplied(assets: seq<Asset>, draws: seq<ClaimDraw>, ids: seq<string>, n: nat) {
    DrawsFit(assets, draws) && |draws| >= n && |ids| >= n
  }

  /** What the claim loop leaves in the claims table: the claims written, in
      order, and the error that ended the command, if one did. Each claim is
      stored as soon as it is built and nothing is rolled back, so the claims
      written before a raise stay. */
  datatype Seeding = Seeding(claims: seq<InsuranceClaim>, raised: Option<SeedError>)

  /** The claims written for a sequence of row outcomes, in order, and the
      error that ends the loop. The k-th claim written takes the k-th draw and
      the k-th id; after a raise no further row is looked at. */
  function SeededOutcomes(os: seq<Outcome>, assets: seq<Asset>, draws: seq<ClaimDraw>, ids: seq<string>): (r: Seeding)
    requires Supplied(assets, draws, ids, |os|)
    ensures |r.claims| <= |os|
    decreases |os|
  {
    if os == [] then Seeding([], None)
    else
      var before := SeededOutcomes(os[..|os| - 1], assets, draws, ids);
      if before.raised.Some? then before
      else
        var done := before.claims;
        assert draws[|done|] in draws;
        match os[|os| - 1]
        case SkipRow => before
        case RaiseRow(e) => Seeding(done, Some(e))
        case ClaimRow(_, _, _) => Seeding(done + [ClaimOf(os[|os| - 1], assets, draws[|done|], ids[|done|])], None)
  }

  /** The claims the loop writes over `rows`, in order, and the error that ends it. */
  function Seeded(rows: seq<CsvRow>, assets: seq<Asset>, draws: seq<ClaimDraw>): (r: Seeding)
    requires DrawsFit(assets, draws) && |draws| >= |rows|
    ensures |r.claims| <= |rows|
  {
    SeededOutcomes(Outcomes(rows), assets, draws, ClaimIds(|rows|))
  }

  /** An error in a prefix of the outcomes ends the whole loop with that error
      and the claims written before it. */
  lemma {:induction false} SeededErrorPersists(os: seq<Outcome>, n: nat, assets: seq<Asset>, draws: seq<ClaimDraw>, ids: seq<string>)
    requires Supplied(assets, draws, ids, |os|) && n <= |os|
    requires SeededOutcomes(os[..n], assets, draws, ids).raised.Some?
    ensures SeededOutcomes(os, assets, draws, ids) == SeededOutcomes(os[..n], assets, draws, ids)
    decreases |os| - n
  {
    if n < |os| {
      var init := os[..|os| - 1];
      assert init[..n] == os[..n];
      SeededErrorPersists(init, n, assets, draws, ids);
    } else {
      assert os[..n] == os;
    }
  }

  /** While the loop runs, a draw and an id are left for the next claim: fewer
      claims than rows have been written so far. */
  lemma DrawAvailable(os: seq<Outcome>, i: nat, assets: seq<Asset>, draws: seq<ClaimDraw>, ids: seq<string>, done: seq<InsuranceClaim>)
    requires Supplied(assets, draws, ids, |os|) && i < |os|
    requires SeededOutcomes(os[..i], assets, draws, ids) == Seeding(done, None)
    ensures |done| < |draws| && |done| < |ids| && draws[|done|].asset < |assets|
  {
    assert draws[|done|] in draws;
  }

  /** Extending the outcomes by a skip keeps the claims written so far. */
  lemma SeededSkipNext(os: seq<Outcome>, i: nat, assets: seq<Asset>, draws: seq<ClaimDraw>, ids: seq<string>, done: seq<InsuranceClaim>)
    requires Supplied(assets, draws, ids, |os|) && i < |os| && os[i].SkipRow?
    requires SeededOutcomes(os[..i], assets, draws, ids) == Seeding(done, None)
    ensures SeededOutcomes(os[..i + 1], assets, draws, ids) == Seeding(done, None)
  {
    assert os[..i + 1][..i] == os[..i];
    assert os[..i + 1][i] == os[i];
  }

  /** Extending the outcomes by a claim row appends its claim, with the next
      draw and the next id. */
  lemma SeededClaimNext(os: seq<Outcome>, i: nat, assets: seq<Asset>, draws: seq<ClaimDraw>, ids: seq<string>, done: seq<InsuranceClaim>)
    requires Supplied(assets, draws, ids, |os|) && i < |os| && os[i].ClaimRow?
    requires SeededOutcomes(os[..i], assets, draws, ids) == Seeding(done, None)
    ensures |done| < |draws| && |done| < |ids| && draws[|done|].asset < |assets|
    ensures SeededOutcomes(os[..i + 1], assets, draws, ids) == Seeding(done + [ClaimOf(os[i], assets, draws[|done|], ids[|done|])], None)
  {
    DrawAvailable(os, i, assets, draws, ids, done);
    assert os[..i + 1][..i] == os[..i];
    assert os[..i + 1][i] == os[i];
  }

  /** A raise ends the whole loop with its error, whatever follows it; the
      claims written before it stay. */
  lemma SeededRaiseNext(os: seq<Outcome>, i: nat, assets: seq<Asset>, draws: seq<ClaimDraw>, ids: seq<string>, done: seq<InsuranceClaim>)
    requires Supplied(assets, draws, ids, |os|) && i < |os| && os[i].RaiseRow?
    requires SeededOutcomes(os[..i], assets, draws, ids) == Seeding(done, None)
    ensures SeededOutcomes(os, assets, draws, ids) == Seeding(done, Some(os[i].error))
  {
    assert os[..i + 1][..i] == os[..i];
    assert os[..i + 1][i] == os[i];
    SeededErrorPersists(os, i + 1, assets, draws, ids);
  }

  /** The loop over the rows with its claim counter, starting at 1 and
      incremented only when a claim is written; a raise ends the command with
      the claims already written left in place.
      The id for counter value k is read from the counter's ids, ClaimIds,
      which holds ClaimId(k) at position k - 1. */
  method SeedClaims(rows: seq<CsvRow>, assets: seq<Asset>, draws: seq<ClaimDraw>) returns (r: Seeding)
    requires DrawsFit(assets, draws) && |draws| >= |rows|
    ensures r == Seeded(rows, assets, draws)
  {
    ghost var os := Outcomes(rows);
    var ids := ClaimIds(|rows|);
    var claims: seq<InsuranceClaim> := [];
    var claim_idx := 1;
    var i := 0;
    assert os[..0] == [];
    while i < |rows|
      invariant 0 <= i <= |rows|
      invariant SeededOutcomes(os[..i], assets, draws, ids) == Seeding(claims, None)
      invariant claim_idx == |claims| + 1
    {
      var o := RowOutcome(rows[i]);
      assert o == os[i];
      if o.RaiseRow? {
        SeededRaiseNext(os, i, assets, draws, ids, claims);
        return Seeding(claims, Some(o.error));
      }
      if o.ClaimRow? {
        SeededClaimNext(os, i, assets, draws, ids, claims);
        var id := ids[claim_idx - 1];
        claims := claims + [ClaimOf(o, assets, draws[claim_idx - 1], id)];
        claim_idx := claim_idx + 1;
      } else {
        SeededSkipNext(os, i, assets, draws, ids, claims);
      }
      ghost var next := os[..i + 1];
      assert SeededOutcomes(next, assets, draws, ids) == Seeding(claims, None);
      i := i + 1;
      assert next == os[..i];
    }
    assert os[..i] == os;
    r := Seeding(claims, None);
  }

  /** The k-th claim has id C followed by k+1 in six digits, and every claim
      passes its validator and is not auto-approved. */
  predicate NumberedFromOne(cs: seq<InsuranceClaim>) {
    && (forall k :: 0 <= k < |cs| ==> cs[k].claim_id == ClaimId(k + 1))
    && (forall c :: c in cs ==> ValidClaim(c) && !c.auto_approved)
  }

  lemma NumberedFromOneAppend(done: seq<InsuranceClaim>, c: InsuranceClaim)
    requires NumberedFromOne(done)
    requires c.claim_id == ClaimId(|done| + 1) && ValidClaim(c) && !c.auto_approved
    ensures NumberedFromOne(done + [c])
  {
    assert forall k :: 0 <= k < |done| ==> (done + [c])[k] == done[k];
  }

  /** Over outcomes whose amounts are non-negative, and with the counter's ids,
      the written claims are numbered from one, valid and not auto-approved. */
  lemma {:induction false} SeededOutcomesShape(os: seq<Outcome>, assets: seq<Asset>, draws: seq<ClaimDraw>, n: nat)
    requires Supplied(assets, draws, ClaimIds(n), |os|)
    requires forall i :: 0 <= i < |os| && os[i].ClaimRow? ==> os[i].amount >= 0.0
    ensures NumberedFromOne(SeededOutcomes(os, assets, draws, ClaimIds(n)).claims)
    decreases |os|
  {
    var ids := ClaimIds(n);
    if os != [] {
      var init := os[..|os| - 1];
      var last := os[|os| - 1];
      assert forall i :: 0 <= i < |init| ==> init[i] == os[i];
      SeededOutcomesShape(init, assets, draws, n);
      var before := SeededOutcomes(init, assets, draws, ids);
      var done := before.claims;
      if before.raised.None? && last.ClaimRow? {
        assert draws[|done|] in draws;
        var c := ClaimOf(last, assets, draws[|done|], ids[|done|]);
        assert SeededOutcomes(os, assets, draws, ids).claims == done + [c];
        NumberedFromOneAppend(done, c);
      } else {
        assert SeededOutcomes(os, assets, draws, ids).claims == done;
      }
    }
  }

  /** The written claims, whether or not the command ends in a raise, are
      numbered consecutively from C000001, so their ids are distinct, and every
      written claim passes its validator and is not auto-approved. */
  lemma SeededClaimsShape(rows: seq<CsvRow>, assets: seq<Asset>, draws: seq<ClaimDraw>)
    requires DrawsFit(assets, draws) && |draws| >= |rows|
    ensures NumberedFromOne(Seeded(rows, assets, draws).claims)
  {
    SeededOutcomesShape(Outcomes(rows), assets, draws, |rows|);
  }

  /** Consecutively numbered claims have pairwise different ids. */
  lemma NumberedFromOneUnique(cs: seq<InsuranceClaim>)
    requires NumberedFromOne(cs)
    ensures UniqueKeys(cs, (c: InsuranceClaim) => c.claim_id)
  {
    forall i, j | 0 <= i < j < |cs| ensures cs[i].claim_id != cs[j].claim_id {
      ClaimIdInjective(i + 1, j + 1);
    }
  }

  /** The written claims have pairwise different ids. */
  lemma SeededIdsUnique(rows: seq<CsvRow>, assets: seq<Asset>, draws: seq<ClaimDraw>)
    requires DrawsFit(assets, draws) && |draws| >= |rows|
    ensures UniqueKeys(Seeded(rows, assets, draws).claims, (c: InsuranceClaim) => c.claim_id)
  {
    SeededClaimsShape(rows, assets, draws);
    NumberedFromOneUnique(Seeded(rows, assets, draws).claims);
  }

  /** Outcomes that are all skips write nothing and raise nothing. */
  lemma {:induction false} AllSkipsWriteNothing(os: seq<Outcome>, assets: seq<Asset>, draws: seq<ClaimDraw>, ids: seq<string>)
    requires Supplied(assets, draws, ids, |os|)
    requires forall i :: 0 <= i < |os| ==> os[i].SkipRow?
    ensures SeededOutcomes(os, assets, draws, ids) == Seeding([], None)
    decreases |os|
  {
    if os != [] {
      var init := os[..|os| - 1];
      assert forall i :: 0 <= i < |init| ==> init[i] == os[i];
      AllSkipsWriteNothing(init, assets, draws, ids);
    }
  }

  /** Rows that lack a state or a county/zone name write no claim and raise nothing. */
  lemma NoPlaceNoClaim(rows: seq<CsvRow>, assets: seq<Asset>, draws: seq<ClaimDraw>)
    requires DrawsFit(assets, draws) && |draws| >= |rows|
    requires forall i :: 0 <= i < |rows| ==> !HasPlace(rows[i])
    ensures Seeded(rows, assets, draws) == Seeding([], None)
  {
    AllSkipsWriteNothing(Outcomes(rows), assets, draws, ClaimIds(|rows|));
  }
}

/** The backend's tables (alphaearth_backend/api/models.py): one row datatype per
    model, the field validators and choice sets as validity predicates, the
    unique identifiers and the zone ordering as store invariants, and the
    trigger's save, which derives its `triggered` flag before persisting. */
module Models {
  import opened Common

  // ---------------------------------------------------------------------------
  // Choice sets
  // ---------------------------------------------------------------------------

  datatype ClaimStatus = Pending | UnderReview | Approved | Rejected

  /** The status a claim gets when none is given. */
  const DefaultStatus: ClaimStatus := Pending

  function StatusName(s: ClaimStatus): string {
    match s
    case Pending => "Pending"
    case UnderReview => "Under Review"
    case Approved => "Approved"
    case Rejected => "Rejected"
  }

  /** The stored value accepted for a status field: exactly one of the four choices. */
  function ParseStatus(name: string): (r: Option<ClaimStatus>)
    ensures r.Some? ==> StatusName(r.value) == name
  {
    if name == "Pending" then Some(Pending)
    else if name == "Under Review" then Some(UnderReview)
    else if name == "Approved" then Some(Approved)
    else if name == "Rejected" then Some(Rejected)
    else None
  }

  /** Every status is stored under a name that reads back as itself. */
  lemma StatusRoundTrip(s: ClaimStatus)
    ensures ParseStatus(StatusName(s)) == Some(s)
  {
  }

  datatype DisasterType = Flood | Wildfire | Storm | Earthquake | Drought

  function DisasterName(d: DisasterType): string {
    match d
    case Flood => "Flood"
    case Wildfire => "Wildfire"
    case Storm => "Storm"
    case Earthquake => "Earthquake"
    case Drought => "Drought"
  }

  /** The stored value accepted for a disaster type: exactly one of the five choices (case-sensitive). */
  function ParseDisaster(name: string): (r: Option<DisasterType>)
    ensures r.Some? ==> DisasterName(r.value) == name
  {
    if name == "Flood" then Some(Flood)
    else if name == "Wildfire" then Some(Wildfire)
    else if name == "Storm" then Some(Storm)
    else if name == "Earthquake" then Some(Earthquake)
    else if name == "Drought" then Some(Drought)
    else None
  }

  lemma DisasterRoundTrip(d: DisasterType)
    ensures ParseDisaster(DisasterName(d)) == Some(d)
  {
  }

  datatype AssetType = ResidentialProperty | CommercialBuilding | FarmLand | IndustrialFacility | Port

  function AssetTypeName(t: AssetType): string {
    match t
    case ResidentialProperty => "Residential Property"
    case CommercialBuilding => "Commercial Building"
    case FarmLand => "Farm Land"
    case IndustrialFacility => "Industrial Facility"
    case Port => "Port"
  }

  // ---------------------------------------------------------------------------
  // Rows
  // ---------------------------------------------------------------------------

  datatype RiskZone = RiskZone(
    location_name: string,
    latitude: real,
    longitude: real,
    flood_risk: real,
    wildfire_risk: real,
    storm_risk: real,
    vegetation_dryness: real,
    avg_temp_c: real,
    sea_level_rise_m: real,
    historical_events: int,
    risk_score: int)

  predicate InUnit(x: real) { 0.0 <= x <= 1.0 }

  /** The field validators of a risk zone: the four factors in [0,1], the score an integer in [0,100]. */
  predicate ValidZone(z: RiskZone) {
    && InUnit(z.flood_risk) && InUnit(z.wildfire_risk) && InUnit(z.storm_risk)
    && InUnit(z.vegetation_dryness)
    && 0 <= z.risk_score <= 100
  }

  datatype InsuranceClaim = InsuranceClaim(
    claim_id: string,
    policy_id: string,
    location_name: string,
    disaster_type: DisasterType,
    damage_score: real,
    claim_amount_usd: real,
    claim_status: ClaimStatus,
    auto_approved: bool)

  /** The field validator of a claim: damage score in [0,1]. */
  predicate ValidClaim(c: InsuranceClaim) {
    InUnit(c.damage_score)
  }

  datatype DamageAnalysis = DamageAnalysis(
    claim_id: string,
    damage_percentage: real,
    affected_area_sqm: real,
    confidence_score: real,
    ai_model_used: string)

  /** The field validators of an analysis: percentage in [0,100], confidence in [0,1]. */
  predicate ValidAnalysis(a: DamageAnalysis) {
    0.0 <= a.damage_percentage <= 100.0 && InUnit(a.confidence_score)
  }

  datatype Asset = Asset(
    asset_id: string,
    owner: string,
    asset_type: AssetType,
    location_name: string,
    insured_value_usd: real,
    active: bool)

  /** A trigger as persisted, and as the API serializes it. */
  datatype TriggerRow = TriggerRow(
    trigger_id: string,
    parameter: string,
    threshold: real,
    current_value: real,
    triggered: bool,
    location_name: string)

  /** The flag a saved trigger carries: the current value has reached the threshold. */
  predicate SavedFlag(t: TriggerRow) { t.triggered == (t.current_value >= t.threshold) }

  // ---------------------------------------------------------------------------
  // Store invariants
  // ---------------------------------------------------------------------------

  /** No two rows share a key (a `unique=True` column). */
  predicate UniqueKeys<T>(rows: seq<T>, key: T -> string) {
    forall i, j :: 0 <= i < j < |rows| ==> key(rows[i]) != key(rows[j])
  }

  /** The default listing order of risk zones: by risk score, highest first. */
  predicate OrderedByRiskDesc(zones: seq<RiskZone>) {
    forall i, j :: 0 <= i < j < |zones| ==> zones[i].risk_score >= zones[j].risk_score
  }

  /** Appending a row whose key is new keeps the keys unique. */
  lemma UniqueKeysAppend<T>(rows: seq<T>, key: T -> string, row: T)
    requires UniqueKeys(rows, key)
    requires forall j :: 0 <= j < |rows| ==> key(rows[j]) != key(row)
    ensures UniqueKeys(rows + [row], key)
  {
  }

  /** Overwriting a row with one of the same key keeps the keys unique. */
  lemma UniqueKeysUpdate<T>(rows: seq<T>, key: T -> string, i: nat, row: T)
    requires UniqueKeys(rows, key) && i < |rows| && key(rows[i]) == key(row)
    ensures UniqueKeys(rows[i := row], key)
  {
  }

  /** The database: each table is the sequence of its rows. */
  class Database {
    var zones: seq<RiskZone>
    var claims: seq<InsuranceClaim>
    var analyses: seq<DamageAnalysis>
    var triggers: seq<TriggerRow>
    var assets: seq<Asset>

    /** Every row passes its validators, every unique column is unique and
        every stored trigger flag is the one save derived. */
    ghost predicate Valid()
      reads this
    {
      && (forall z :: z in zones ==> ValidZone(z))
      && (forall c :: c in claims ==> ValidClaim(c))
      && (forall a :: a in analyses ==> ValidAnalysis(a))
      && (forall t :: t in triggers ==> SavedFlag(t))
      && UniqueKeys(claims, (c: InsuranceClaim) => c.claim_id)
      && UniqueKeys(triggers, (t: TriggerRow) => t.trigger_id)
      && UniqueKeys(assets, (a: Asset) => a.asset_id)
    }

    constructor ()
      ensures Valid()
      ensures zones == [] && claims == [] && analyses == [] && triggers == [] && assets == []
    {
      zones, claims, analyses, triggers, assets := [], [], [], [], [];
    }
  }

  // ---------------------------------------------------------------------------
  // ParametricTrigger and its save
  // ---------------------------------------------------------------------------

  /** The outcome of a save: the row was written, or the INSERT of a new
      object hit the unique trigger_id column. */
  datatype SaveOutcome = Written | IntegrityError

  class ParametricTrigger {
    /** Whether the object has a row in the table (its primary key is set). */
    var saved: bool
    var trigger_id: string
    var parameter: string
    var threshold: real
    var current_value: real
    var triggered: bool
    var location_name: string

    /** A new, unsaved trigger: `triggered` has its default, false. */
    constructor (trigger_id: string, parameter: string, threshold: real, current_value: real, location_name: string)
      ensures this.trigger_id == trigger_id && this.parameter == parameter
      ensures this.threshold == threshold && this.current_value == current_value
      ensures this.location_name == location_name
      ensures !triggered && !saved
    {
      this.trigger_id := trigger_id;
      this.parameter := parameter;
      this.threshold := threshold;
      this.current_value := current_value;
      this.location_name := location_name;
      this.triggered := false;
      this.saved := false;
    }

    /** The row this object persists as. */
    function Row(): (r: TriggerRow)
      reads this
      ensures r.trigger_id == trigger_id && r.triggered == triggered
      ensures r.threshold == threshold && r.current_value == current_value
    {
      TriggerRow(trigger_id, parameter, threshold, current_value, triggered, location_name)
    }

    /** save(): overwrite the flag with `current_value >= threshold`, whatever it
        held, then write the row. A new object is INSERTed, which fails on the
        unique trigger_id column when that id is stored already; a saved object
        updates its row, or inserts it again when the row has gone. */
    method Save(db: Database) returns (outcome: SaveOutcome)
      requires db.Valid()
      modifies this`triggered, this`saved, db`triggers
      ensures db.Valid()
      ensures triggered == (current_value >= threshold)
      ensures outcome == IntegrityError <==>
                !old(saved) && exists j :: 0 <= j < |old(db.triggers)| && old(db.triggers)[j].trigger_id == trigger_id
      ensures outcome == IntegrityError ==> db.triggers == old(db.triggers) && saved == old(saved)
      ensures outcome == Written ==> saved && db.triggers == Persisted(old(db.triggers), Row())
      ensures outcome == Written && !old(saved) ==> db.triggers == old(db.triggers) + [Row()]
    {
      triggered := current_value >= threshold;
      var row := Row();
      match FirstIndex(db.triggers, (t: TriggerRow) => t.trigger_id, trigger_id)
      case None =>
        UniqueKeysAppend(db.triggers, (t: TriggerRow) => t.trigger_id, row);
        db.triggers := db.triggers + [row];
        saved := true;
        outcome := Written;
      case Some(i) =>
        if !saved {
          outcome := IntegrityError;
          return;
        }
        UniqueKeysUpdate(db.triggers, (t: TriggerRow) => t.trigger_id, i, row);
        db.triggers := db.triggers[i := row];
        outcome := Written;
    }

    /** Saving a saved trigger again, with its values unchanged, leaves the flag as it was. */
    method SaveAgain(db: Database)
      requires db.Valid()
      requires saved && triggered == (current_value >= threshold)
      modifies this`triggered, this`saved, db`triggers
      ensures db.Valid()
      ensures triggered == old(triggered) && saved
      ensures db.triggers == Persisted(old(db.triggers), Row())
    {
      var outcome := Save(db);
    }
  }

  /** The trigger table after writing `row`: the row with the same trigger id is
      replaced, or the row is appended when there is none. */
  function Persisted(rows: seq<TriggerRow>, row: TriggerRow): (r: seq<TriggerRow>)
    ensures row in r
    ensures |r| == |rows| || |r| == |rows| + 1
    ensures forall t :: t in rows && t.trigger_id != row.trigger_id ==> t in r
  {
    match FirstIndex(rows, (t: TriggerRow) => t.trigger_id, row.trigger_id)
    case None => rows + [row]
    case Some(i) =>
      var r := rows[i := row];
      assert r[i] == row;
      assert forall k :: 0 <= k < |rows| && k != i ==> r[k] == rows[k];
      r
  }

  /** Writing a trigger whose id is not stored yet appends its row. */
  lemma PersistedNew(rows: seq<TriggerRow>, row: TriggerRow)
    requires forall j :: 0 <= j < |rows| ==> rows[j].trigger_id != row.trigger_id
    ensures Persisted(rows, row) == rows + [row]
  {
  }
}

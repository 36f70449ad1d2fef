/** The backend's serializers (alphaearth_backend/api/serializers.py): the claim
    create hook that auto-approves, the asset's risk-score lookup, the trigger
    serializer whose `triggered` field is read-only, and the validation of a
    damage-analysis upload. */
module Serializers {
  import opened Common
  import opened Models

  // ---------------------------------------------------------------------------
  // InsuranceClaimCreateSerializer.create
  // ---------------------------------------------------------------------------

  /** Damage score from which a created claim is approved automatically. */
  const AutoApproveAt: real := 0.7

  /** The validated fields handed to create; absent optional fields are None. */
  datatype ClaimFields = ClaimFields(
    claim_id: string,
    policy_id: string,
    location_name: string,
    disaster_type: DisasterType,
    damage_score: Option<real>,
    claim_amount_usd: real,
    claim_status: Option<ClaimStatus>,
    auto_approved: Option<bool>)

  /** Why the insert behind create can fail: the damage score column has no default. */
  datatype CreateError = MissingDamageScore

  function GetOr<T>(o: Option<T>, default: T): T {
    match o
    case Some(v) => v
    case None => default
  }

  /** The insert: the model's defaults fill the absent status (Pending) and
      auto_approved (false); an absent damage score cannot be stored. */
  function Insert(f: ClaimFields): Result<InsuranceClaim, CreateError> {
    match f.damage_score
    case None => Err(MissingDamageScore)
    case Some(d) =>
      Ok(InsuranceClaim(f.claim_id, f.policy_id, f.location_name, f.disaster_type, d,
                        f.claim_amount_usd, GetOr(f.claim_status, DefaultStatus), GetOr(f.auto_approved, false)))
  }

  /** create(): a damage score of at least 0.7 (an absent one reads as 0) forces
      auto_approved and the Approved status; otherwise the submitted fields are
      kept; every other field passes through untouched. */
  method CreateClaim(validated: ClaimFields) returns (r: Result<InsuranceClaim, CreateError>)
    ensures validated.damage_score.None? <==> r.Err?
    ensures r.Ok? ==> r.value.damage_score == validated.damage_score.value
    ensures r.Ok? && r.value.damage_score >= AutoApproveAt ==>
              r.value.auto_approved && r.value.claim_status == Approved
    ensures r.Ok? && r.value.damage_score < AutoApproveAt ==>
              r.value.auto_approved == GetOr(validated.auto_approved, false) &&
              r.value.claim_status == GetOr(validated.claim_status, DefaultStatus)
    ensures r.Ok? ==>
              r.value.claim_id == validated.claim_id && r.value.policy_id == validated.policy_id &&
              r.value.location_name == validated.location_name &&
              r.value.disaster_type == validated.disaster_type &&
              r.value.claim_amount_usd == validated.claim_amount_usd
  {
    var data := validated;
    if GetOr(data.damage_score, 0.0) >= AutoApproveAt {
      data := data.(auto_approved := Some(true), claim_status := Some(Approved));
    }
    r := Insert(data);
  }

  // ---------------------------------------------------------------------------
  // AssetSerializer.get_risk_score
  // ---------------------------------------------------------------------------

  /** The risk score of the first zone in the listing whose name equals the
      asset's location exactly, or None when no zone has that name. */
  function GetRiskScore(listing: seq<RiskZone>, location_name: string): (r: Option<int>)
    ensures r.None? <==> forall j :: 0 <= j < |listing| ==> listing[j].location_name != location_name
    ensures r.Some? ==> exists j :: 0 <= j < |listing| && listing[j].location_name == location_name &&
                                    listing[j].risk_score == r.value
  {
    match FirstIndex(listing, (z: RiskZone) => z.location_name, location_name)
    case None => None
    case Some(i) => Some(listing[i].risk_score)
  }

  /** On the default listing (highest score first) the score found is the
      largest among the zones of that name. */
  lemma GetRiskScoreIsMaximum(listing: seq<RiskZone>, location_name: string)
    requires OrderedByRiskDesc(listing)
    ensures GetRiskScore(listing, location_name).Some? ==>
              forall j :: 0 <= j < |listing| && listing[j].location_name == location_name ==>
                listing[j].risk_score <= GetRiskScore(listing, location_name).value
  {
    match FirstIndex(listing, (z: RiskZone) => z.location_name, location_name)
    case None =>
    case Some(i) =>
      forall j | 0 <= j < |listing| && listing[j].location_name == location_name
        ensures listing[j].risk_score <= listing[i].risk_score
      {
        if i < j {
          assert listing[i].risk_score >= listing[j].risk_score;
        }
      }
  }

  // ---------------------------------------------------------------------------
  // ParametricTriggerSerializer: `triggered` is read-only
  // ---------------------------------------------------------------------------

  /** The writable fields a client sends; a `triggered` value it sends is ignored. */
  datatype TriggerPayload = TriggerPayload(
    trigger_id: string,
    parameter: string,
    threshold: real,
    current_value: real,
    triggered: Option<bool>,
    location_name: string)

  datatype TriggerCreateResponse = TriggerIdTaken | TriggerCreated(row: TriggerRow)

  /** POST to the trigger collection: a trigger id already stored fails the
      uniqueness validation; otherwise the object is built from the writable
      fields only and saved, so its flag is the one save derives. */
  method CreateTrigger(db: Database, p: TriggerPayload) returns (resp: TriggerCreateResponse)
    requires db.Valid()
    modifies db`triggers
    ensures db.Valid()
    ensures resp.TriggerIdTaken? <==> exists j :: 0 <= j < |old(db.triggers)| && old(db.triggers)[j].trigger_id == p.trigger_id
    ensures resp.TriggerIdTaken? ==> db.triggers == old(db.triggers)
    ensures resp.TriggerCreated? ==>
              && db.triggers == old(db.triggers) + [resp.row]
              && resp.row.triggered == (p.current_value >= p.threshold)
              && resp.row == TriggerRow(p.trigger_id, p.parameter, p.threshold, p.current_value,
                                        p.current_value >= p.threshold, p.location_name)
  {
    if FirstIndex(db.triggers, (t: TriggerRow) => t.trigger_id, p.trigger_id).Some? {
      resp := TriggerIdTaken;
      return;
    }
    var t := new ParametricTrigger(p.trigger_id, p.parameter, p.threshold, p.current_value, p.location_name);
    var outcome := t.Save(db);
    resp := TriggerCreated(t.Row());
  }

  // ---------------------------------------------------------------------------
  // ImageUploadSerializer
  // ---------------------------------------------------------------------------

  /** An uploaded file; `is_image` is whether the image library accepts its content. */
  datatype ImageFile = ImageFile(name: string, is_image: bool)

  /** The multipart body of a damage-analysis request; absent parts are None. */
  datatype UploadRequest = UploadRequest(
    pre_image: Option<ImageFile>,
    post_image: Option<ImageFile>,
    location_name: Option<string>,
    disaster_type: Option<string>)

  datatype ValidatedUpload = ValidatedUpload(
    pre_image: ImageFile,
    post_image: ImageFile,
    location_name: string,
    disaster_type: DisasterType)

  datatype Field = PreImage | PostImage | LocationName | DisasterTypeField
  datatype Problem = Required | NotAnImage | Blank | TooLong | InvalidChoice
  datatype FieldError = FieldError(field: Field, problem: Problem)

  const MaxLocationLength: nat := 200

  predicate IsSpace(c: char) { c == ' ' || c == '\t' || c == '\n' || c == '\r' || c == '\U{0B}' || c == '\U{0C}' }

  function StripLeft(s: string): (r: string)
    ensures |r| <= |s| && r == s[|s| - |r|..]
    ensures r != [] ==> !IsSpace(r[0])
    ensures (forall i :: 0 <= i < |s| ==> IsSpace(s[i])) ==> r == []
  {
    if s != [] && IsSpace(s[0]) then StripLeft(s[1..]) else s
  }

  function StripRight(s: string): (r: string)
    ensures |r| <= |s| && r == s[..|r|]
    ensures r != [] ==> !IsSpace(r[|r| - 1])
    ensures (forall i :: 0 <= i < |s| ==> IsSpace(s[i])) ==> r == []
  {
    if s != [] && IsSpace(s[|s| - 1]) then StripRight(s[..|s| - 1]) else s
  }

  /** Surrounding whitespace removed, as the character field does before
      validating: a result that neither starts nor ends with whitespace, empty
      for an all-whitespace input, and the input itself when it has no
      surrounding whitespace. */
  function Strip(s: string): (r: string)
    ensures |r| <= |s|
    ensures r != [] ==> !IsSpace(r[0]) && !IsSpace(r[|r| - 1])
    ensures (forall i :: 0 <= i < |s| ==> IsSpace(s[i])) ==> r == []
    ensures s != [] && !IsSpace(s[0]) && !IsSpace(s[|s| - 1]) ==> r == s
  {
    var left := StripLeft(s);
    var r := StripRight(left);
    assert (forall i :: 0 <= i < |s| ==> IsSpace(s[i])) ==> left == [];
    r
  }

  function ImageErrors(f: Field, img: Option<ImageFile>): seq<FieldError> {
    match img
    case None => [FieldError(f, Required)]
    case Some(i) => if i.is_image then [] else [FieldError(f, NotAnImage)]
  }

  function LocationErrors(loc: Option<string>): seq<FieldError> {
    match loc
    case None => [FieldError(LocationName, Required)]
    case Some(s) =>
      if Strip(s) == [] then [FieldError(LocationName, Blank)]
      else if |Strip(s)| > MaxLocationLength then [FieldError(LocationName, TooLong)]
      else []
  }

  function DisasterErrors(d: Option<string>): seq<FieldError> {
    match d
    case None => [FieldError(DisasterTypeField, Required)]
    case Some(s) => if ParseDisaster(s).None? then [FieldError(DisasterTypeField, InvalidChoice)] else []
  }

  /** is_valid(): every field's errors are collected; the upload is accepted only
      with both images, a non-blank location of at most 200 characters and one
      of the five disaster types. */
  function ValidateUpload(u: UploadRequest): (r: Result<ValidatedUpload, seq<FieldError>>)
    ensures r.Ok? <==>
              && u.pre_image.Some? && u.pre_image.value.is_image
              && u.post_image.Some? && u.post_image.value.is_image
              && u.location_name.Some? && 0 < |Strip(u.location_name.value)| <= MaxLocationLength
              && u.disaster_type.Some? && ParseDisaster(u.disaster_type.value).Some?
    ensures r.Ok? ==> 0 < |r.value.location_name| <= MaxLocationLength
    ensures r.Ok? ==> r.value.location_name == Strip(u.location_name.value)
    ensures r.Ok? ==> r.value.pre_image == u.pre_image.value && r.value.post_image == u.post_image.value
    ensures r.Ok? ==> DisasterName(r.value.disaster_type) == u.disaster_type.value
    ensures r.Err? ==> |r.error| > 0
  {
    var errors := ImageErrors(PreImage, u.pre_image) + ImageErrors(PostImage, u.post_image)
                  + LocationErrors(u.location_name) + DisasterErrors(u.disaster_type);
    if errors == [] then
      Ok(ValidatedUpload(u.pre_image.value, u.post_image.value, Strip(u.location_name.value),
                         ParseDisaster(u.disaster_type.value).value))
    else
      Err(errors)
  }
}

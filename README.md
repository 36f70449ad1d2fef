# AlphaEarth climate-risk insurance: a Dafny model of its rules

AlphaEarth is a climate-risk insurance platform. A Django REST backend stores
risk zones, insured assets, insurance claims, damage analyses and parametric
triggers. React pages show them. This project models the rules those layers
apply and proves properties of them:

- **Risk bands.** There is one 70/50 classifier (`RiskBands.Classify`).
  `Consistency` proves that each place repeating the cut-offs agrees with it:
  - the risk scoring page's badge;
  - the asset map's marker colours and list badges;
  - the high-risk listing;
  - the dashboard buckets.
- **Backend tables** (`Models`). Each table is a row datatype. The field
  validators, choice sets, unique columns and the zone ordering are validity
  predicates. The `Database` class holds the tables as sequences. The trigger is
  a class whose `Save` overwrites its `triggered` flag before writing the row.
- **Serializers** (`Serializers`):
  - the claim-create hook that auto-approves at a damage score of 0.7;
  - the asset's risk-score lookup;
  - the read-only trigger flag;
  - the validation of a damage-analysis upload.
- **Request handlers** (`Views`):
  - the listing actions and the dashboard statistics;
  - approve and reject;
  - the numeric part of damage scoring: per-class maximum confidence, the presence-change ratio, the severity table and the weighted combination;
  - claim creation with count-based ids;
  - the risk-assessment guards.
- **Seeding command** (`SeedData`):
  - the city set collected from storm-event rows, and the fallback list and the gate built on it;
  - zones, assets and triggers with zero-padded counter ids;
  - the event-type classifier;
  - the `DAMAGE_PROPERTY` amount parser;
  - the claim loop and its claim counter.
- **Pages:**
  - response normalization (`Responses`);
  - the risk scoring page (`RiskScoring`);
  - the asset map (`AssetMap`);
  - the trigger cards (`Triggers`);
  - the claims page (`Claims`).

  Page state (selection, search text, image slots) is a class per page. The
  methods of each class are the page's effects and handlers.

Things the model takes as inputs:

- the object detector's boxes;
- the image-similarity score;
- random draws;
- response bodies and the outcome of network calls;
- the Python iteration order of the city set.

Real-valued fields are Dafny `real`. Lower- and upper-casing are ASCII case
mapping. Strings are sequences of characters.

Three behaviours of the code are modelled as written:

- The risk scoring page and the claims page normalize a response without a null
  guard. The asset map and the trigger page guard with `?.`.
- The asset JSON the backend sends has `asset_type` but no `type` field. The asset
  map's icon is chosen from `type`. The model reads the backend's JSON as sent,
  so there seeded assets get the default icon (`AssetMap.FromRow`). That holds
  in the running application only if the frontend's `@/lib/api` client passes
  the JSON through without renaming `asset_type`.
- A damage-analysis claim id is computed from the current claim count. It can
  repeat an existing id once a claim was deleted. The unique column then
  rejects the insert (`Views.ClaimIdTaken`).

## Model

| member | source | states |
|---|---|---|
| RiskBands.Classify | alphaearth_frontend/src/pages/RiskScoring.tsx:67-71 | High iff score ≥ 70, Medium iff 50 ≤ score < 70, Low iff score < 50 (closed lower bounds) |
| RiskBands.ClassifyMonotone | alphaearth_frontend/src/pages/RiskScoring.tsx:67-71 | a higher score never falls in a lower band |
| Models.ParseStatus | alphaearth_backend/api/models.py:33-38 | an accepted status value is the stored name of the status it parses to |
| Models.StatusRoundTrip | alphaearth_backend/api/models.py:33-38 | every one of the four statuses reads back from its stored name |
| Models.ParseDisaster | alphaearth_backend/api/models.py:40-46 | an accepted disaster value is the stored name of the type it parses to |
| Models.DisasterRoundTrip | alphaearth_backend/api/models.py:40-46 | every one of the five disaster types reads back from its stored name |
| Models.UniqueKeysAppend | alphaearth_backend/api/models.py:48 | inserting a row whose key is new keeps a unique column unique |
| Models.UniqueKeysUpdate | alphaearth_backend/api/models.py:76 | overwriting a row with one of the same key keeps a unique column unique |
| Models.ParametricTrigger.constructor | alphaearth_backend/api/models.py:76-81 | a new trigger carries the given fields and the default flag false, and is not yet saved |
| Models.ParametricTrigger.Save | alphaearth_backend/api/models.py:94-97 | an unsaved trigger whose id is already stored raises IntegrityError and changes no row; otherwise the flag becomes current_value ≥ threshold whatever it held, an unsaved trigger is appended and a saved one replaces its row; the table stays valid |
| Models.ParametricTrigger.SaveAgain | alphaearth_backend/api/models.py:96 | saving an already saved trigger with unchanged values leaves its flag unchanged and rewrites its row |
| Models.Persisted | alphaearth_backend/api/models.py:97 | the written row is in the table, the table grows by at most one, rows with other ids stay |
| Models.PersistedNew | alphaearth_backend/api/models.py:97 | writing a trigger whose id is not stored appends exactly its row |
| Serializers.CreateClaim | alphaearth_backend/api/serializers.py:57-63 | a score ≥ 0.7 forces auto_approved and Approved; below 0.7 the submitted (or default) status and flag stay; every other field passes through; no score means the insert fails |
| Serializers.GetRiskScore | alphaearth_backend/api/serializers.py:90-96 | None iff no zone has exactly the asset's location name, otherwise the score of a zone with that name |
| Serializers.GetRiskScoreIsMaximum | alphaearth_backend/api/serializers.py:93-94 | on the default listing (highest score first) the score found is the largest among the zones of that name |
| Serializers.CreateTrigger | alphaearth_backend/api/serializers.py:74 | a taken trigger id changes nothing; otherwise the row built from the writable fields is appended with flag current_value ≥ threshold, whatever flag the client sent |
| Serializers.Strip | alphaearth_backend/api/serializers.py:125 | the result neither starts nor ends with whitespace; an all-whitespace location strips to "", and one without surrounding whitespace is kept as it is |
| Serializers.ValidateUpload | alphaearth_backend/api/serializers.py:122-130 | accepted iff both files are images, the stripped location is non-blank and at most 200 characters, and the disaster type is one of the five choices; an accepted upload carries the stripped location and the two uploaded images; a rejection lists at least one error |
| Views.HighRiskZones | alphaearth_backend/api/views.py:52-56 | exactly the zones scoring at least 70 |
| Views.ApprovedClaims | alphaearth_backend/api/views.py:89-94 | exactly the claims whose status is Approved |
| Views.PendingClaims | alphaearth_backend/api/views.py:96-103 | exactly the claims Pending or Under Review |
| Views.ActiveTriggers | alphaearth_backend/api/views.py:142-147 | exactly the triggers whose stored flag is set |
| Views.ByLocation | alphaearth_backend/api/views.py:58-64 | exactly the rows whose location name contains the parameter, ignoring case |
| Views.ByLocationWithoutParameter | alphaearth_backend/api/views.py:61-62 | a missing location parameter lists every row |
| Views.GetDashboardStats | alphaearth_backend/api/views.py:218-245 | total_locations and active_claims are the table sizes; approved and pending are the lengths of the approved and pending listings, active_triggers the length of the active listing, high the length of the high_risk listing, medium and low the numbers of zones in [50, 70) and below 50; the amount is the table's total |
| Views.DashboardZoneBucketsPartition | alphaearth_backend/api/views.py:231-235 | high + medium + low = total_locations |
| Views.DashboardClaimCountsBounded | alphaearth_backend/api/views.py:220-224 | approved + pending ≤ all claims, the two counts being disjoint |
| Views.TotalClaimAmount | alphaearth_backend/api/views.py:226-228 | 0 for no claims (the `or 0` of an empty sum), a single claim's own amount for one claim, and non-negative when every amount is |
| Views.TotalClaimAmountAppend | alphaearth_backend/api/views.py:226-228 | the total of two tables together is the sum of their totals |
| Views.SetClaimStatus | alphaearth_backend/api/views.py:105-121 | a missing claim changes nothing; otherwise exactly that claim's status is overwritten and no other field or row changes; the table stays valid |
| Views.Approve | alphaearth_backend/api/views.py:105-112 | the claim's status becomes Approved and nothing else changes |
| Views.Reject | alphaearth_backend/api/views.py:114-121 | the claim's status becomes Rejected and nothing else changes |
| Views.GetDisasterScore | alphaearth_backend/api/views.py:253-265 | the severity lies in [0.5, 0.9]; it is 0.5 exactly for a lower-cased type outside the table |
| Views.SeverityOfChoices | alphaearth_backend/api/views.py:253-258 | Flood 0.7, Wildfire 0.8, Storm 0.6, Earthquake 0.9, and Drought 0.5 because it is missing from the table |
| Views.MaxConfidencesSpec | alphaearth_backend/api/views.py:282-291 | the keys are exactly the detected classes and each maps to the largest confidence seen for it, floored at 0 |
| Views.AnalyzeImageObjects | alphaearth_backend/api/views.py:276-291 | the nested loop builds that map; an undecodable image gives the empty map |
| Views.CountChanges | alphaearth_backend/api/views.py:320-324 | the loop counts the classes present in exactly one image |
| Views.ChangeRatio | alphaearth_backend/api/views.py:329-330 | the presence-change ratio lies in [0,1], so the clamp leaves it unchanged |
| Views.ChangeRatioZeroIffSame | alphaearth_backend/api/views.py:319-329 | the ratio is 0 iff both images show the same classes |
| Views.ChangeRatioOneIffDisjoint | alphaearth_backend/api/views.py:319-329 | the ratio is 1 iff no class appears in both images |
| Views.ComputeDamageScore | alphaearth_backend/api/views.py:293-330 | the similarity fallback is taken iff neither image has a detection; otherwise the score is the change ratio of the two class sets, in [0,1] |
| Views.LocationScore | alphaearth_backend/api/views.py:352 | min(v + s/5 + h/10, 3)/3 is at most 1, and non-negative for non-negative inputs |
| Views.WeightedDamage | alphaearth_backend/api/views.py:355 | 0.5·image + 0.3·severity + 0.2·location lies in [0,1] when its parts do |
| Views.DamageScore | alphaearth_backend/api/views.py:345-355 | with the default location metadata, an image score in [0,1] gives a damage score in [0,1] |
| Views.DroughtNeverAutoApproved | alphaearth_backend/api/views.py:376-377 | a Drought analysis with an image score of at most 1 never reaches the 0.7 auto-approval score |
| Views.DroughtAutoApprovalCutoff | alphaearth_backend/api/views.py:352-355 | a Drought analysis is auto-approved iff its image score is at least 31/30, which only the similarity fallback can give |
| Views.DroughtApprovedFromFallback | alphaearth_backend/api/views.py:317 | a fallback image score of 1.04 gets a Drought claim auto-approved |
| Views.ClaimNumber | alphaearth_backend/api/views.py:363 | "C" and digits that read back as count + 1001, so different counts give different ids |
| Views.PolicyNumber | alphaearth_backend/api/views.py:364 | "P" and digits that read back as count + 5001 |
| Views.NewClaim | alphaearth_backend/api/views.py:362-379 | Approved and auto-approved iff damage ≥ 0.7, otherwise Under Review; ids "C"+(1001+n) and "P"+(5001+n); amount = damage·5000·100 |
| Views.NewAnalysis | alphaearth_backend/api/views.py:382-389 | percentage = 100·damage, area = 5000·damage, and a damage in [0,1] gives a valid analysis |
| Views.StoreClaimAndAnalysis | alphaearth_backend/api/views.py:367-389 | a valid claim with a new id and its valid analysis are appended to their tables, which stay valid |
| Views.DamageAnalysisPost | alphaearth_backend/api/views.py:337-395 | 400 iff the upload is invalid; the unique-id failure happens iff the upload is valid and the count-based id "C"+(1001+count) is already stored, and then stores nothing; otherwise the claim and its analysis are appended with the scored damage |
| Views.Truncate | alphaearth_backend/api/views.py:427 | `int()` truncates toward zero: within 1 below a non-negative value and within 1 above a negative one, with the same sign |
| Views.AssessedRiskScore | alphaearth_backend/api/views.py:427 | the truncated exact mean of three factors in [0,1], scaled to 100, lies in [0,100] |
| Views.HighestScoring | alphaearth_backend/api/views.py:413-415 | None iff no zone has the name; otherwise a stored zone with that name whose score is the largest among them, as `.first()` under the default ordering gives |
| Views.HighestScoringOnListing | alphaearth_backend/api/models.py:21-22 | on the listing ordered highest score first, the zone found has the score the serializer's lookup finds, and exists exactly when that lookup does |
| Views.Assess | alphaearth_backend/api/views.py:401-441 | 400 iff a coordinate is missing or zero; an existing name returns a zone of that name with the largest score; otherwise the new zone has the name, the coordinates, the drawn factors and the truncated mean score, and is valid |
| Views.ZeroCoordinateIsMissing | alphaearth_backend/api/views.py:406 | a latitude or longitude of 0 is answered as missing |
| Views.RiskAssessmentPost | alphaearth_backend/api/views.py:401-444 | the zone table grows by the new zone only when a zone is created, and stays valid; the zone returned for an existing name has the largest score of that name |
| Responses.NormalizeUnguarded | alphaearth_frontend/src/pages/RiskScoring.tsx:47 | fails exactly on a null body; an envelope without results reads as [] (with NormalizeRoundTrip: an array or an envelope with results reads back as its list) |
| Responses.NormalizeGuarded | alphaearth_frontend/src/pages/AssetMap.tsx:53-54 | a null body and an envelope without results both read as [] (with NormalizeRoundTrip: an array or an envelope with results reads back as its list) |
| Responses.GuardedAgreesUnguarded | alphaearth_frontend/src/pages/AssetMap.tsx:53 | the guarded and unguarded copies agree on every body but null |
| Responses.NormalizeRoundTrip | alphaearth_frontend/src/pages/Triggers.tsx:17 | a list sent bare or in a results envelope reads back as itself |
| Responses.NormalizeIdempotent | alphaearth_frontend/src/pages/AssetMap.tsx:53-54 | normalizing a normalized list changes nothing |
| Responses.RiskScoringList | alphaearth_frontend/src/pages/RiskScoring.tsx:41-52 | a failed request lists no zone |
| Responses.RiskScoringListIsGuarded | alphaearth_frontend/src/pages/RiskScoring.tsx:47-52 | through the query's error path the unguarded page lists what the guarded copy would |
| RiskScoring.GetRiskLevel | alphaearth_frontend/src/pages/RiskScoring.tsx:67-71 | High Risk/destructive iff ≥ 70, Medium Risk/secondary iff 50 ≤ score < 70, Low Risk/default iff < 50 |
| RiskScoring.GetRiskLevelMonotone | alphaearth_frontend/src/pages/RiskScoring.tsx:67-71 | a higher score never shows a less severe badge |
| RiskScoring.SearchFilter | alphaearth_frontend/src/pages/RiskScoring.tsx:62-64 | exactly the zones whose lower-cased name contains the lower-cased query |
| RiskScoring.EmptyQueryKeepsAll | alphaearth_frontend/src/pages/RiskScoring.tsx:62-64 | the empty query lists every zone, in order |
| RiskScoring.SearchIgnoresQueryCase | alphaearth_frontend/src/pages/RiskScoring.tsx:63 | lower-casing the query changes nothing |
| RiskScoring.FullNameIsFound | alphaearth_frontend/src/pages/RiskScoring.tsx:63 | typing a zone's full name in any case keeps it listed |
| RiskScoring.SearchKeepsOrder | alphaearth_frontend/src/pages/RiskScoring.tsx:62 | the filter keeps the fetched order |
| RiskScoring.RadarData | alphaearth_frontend/src/pages/RiskScoring.tsx:86-91 | four points, Flood, Wildfire, Storm, Vegetation, in that order |
| RiskScoring.RadarDataInDomain | alphaearth_frontend/src/pages/RiskScoring.tsx:86-91 | for a valid zone each point lies in [0,100] and is its factor × 100 |
| RiskScoring.AssessmentNotes | alphaearth_frontend/src/pages/RiskScoring.tsx:218-220 | each factor's note appears iff that factor is strictly above 0.7 |
| RiskScoring.RiskScoringPage.constructor | alphaearth_frontend/src/pages/RiskScoring.tsx:37-38 | empty query, nothing selected |
| RiskScoring.RiskScoringPage.Filtered | alphaearth_frontend/src/pages/RiskScoring.tsx:62-64 | the listed zones are the fetched zones that match the current query |
| RiskScoring.RiskScoringPage.View | alphaearth_frontend/src/pages/RiskScoring.tsx:77-83 | the no-zones screen iff no zones, the please-select screen iff zones but no selection, otherwise the selected zone with its level |
| RiskScoring.RiskScoringPage.ReceiveZones | alphaearth_frontend/src/pages/RiskScoring.tsx:41-52 | the zone list becomes the normalized response |
| RiskScoring.RiskScoringPage.AutoSelect | alphaearth_frontend/src/pages/RiskScoring.tsx:55-59 | selects the first zone only when nothing is selected; an existing selection stays; with zones the details show |
| RiskScoring.RiskScoringPage.SetSearchQuery | alphaearth_frontend/src/pages/RiskScoring.tsx:108 | only the query changes, and the list becomes the filter by it |
| RiskScoring.RiskScoringPage.Select | alphaearth_frontend/src/pages/RiskScoring.tsx:122 | the clicked zone is selected and its details show |
| AssetMap.FromRow | alphaearth_backend/api/serializers.py:82-87 | the asset JSON keeps id and location but has no `type` field |
| AssetMap.GetRiskForLocation | alphaearth_frontend/src/pages/AssetMap.tsx:67-70 | the score of the first zone with exactly that name, 0 when none |
| AssetMap.ScoreColor | alphaearth_frontend/src/pages/AssetMap.tsx:102 | red iff ≥ 70, orange iff 50 ≤ score < 70, green iff < 50 |
| AssetMap.AssetBadgeVariant | alphaearth_frontend/src/pages/AssetMap.tsx:195 | destructive iff ≥ 70, secondary iff 50 ≤ score < 70, default iff < 50 |
| AssetMap.AssetBadges | alphaearth_frontend/src/pages/AssetMap.tsx:194-200 | the risk badge of the looked-up score, and an outline badge iff the asset is inactive |
| AssetMap.GetAssetIcon | alphaearth_frontend/src/pages/AssetMap.tsx:60-65 | Home iff the type contains "Residential"; Building iff it contains "Commercial" but not "Residential"; Sprout otherwise, including no type |
| AssetMap.ResidentialIcon | alphaearth_frontend/src/pages/AssetMap.tsx:62 | a Residential Property asset gets the Home icon |
| AssetMap.CommercialIcon | alphaearth_frontend/src/pages/AssetMap.tsx:63 | a Commercial Building asset gets the Building icon |
| AssetMap.OtherTypesIcon | alphaearth_frontend/src/pages/AssetMap.tsx:64 | Farm Land, Industrial Facility and Port get the Sprout icon |
| AssetMap.ZoneMarkerOf | alphaearth_frontend/src/pages/AssetMap.tsx:101-116 | coloured by the zone's score; emphasised (12/0.7/2, else 8/0.5/1) iff some asset has exactly the zone's name, and then tied to the first such asset |
| AssetMap.AssetMarkerOf | alphaearth_frontend/src/pages/AssetMap.tsx:137-151 | radius 14 and dashed iff selected, else 10; coloured by the looked-up score |
| AssetMap.AtMostOneLargeMarker | alphaearth_frontend/src/pages/AssetMap.tsx:143 | with unique asset ids at most one asset marker is enlarged |
| AssetMap.AssetMapPage.Receive | alphaearth_frontend/src/pages/AssetMap.tsx:53-54 | both lists become the guarded normalization of their bodies |
| AssetMap.AssetMapPage.MapShown | alphaearth_frontend/src/pages/AssetMap.tsx:73 | the map shows iff both lists are non-empty |
| AssetMap.AssetMapPage.SelectDefault | alphaearth_frontend/src/pages/AssetMap.tsx:56-58 | selects the first asset only when nothing is selected |
| AssetMap.AssetMapPage.ClickZone | alphaearth_frontend/src/pages/AssetMap.tsx:116 | clicking a zone selects the first asset at its location, or changes nothing without one |
| AssetMap.AssetMapPage.ClickAsset | alphaearth_frontend/src/pages/AssetMap.tsx:151 | the clicked asset is selected and its marker is the enlarged one |
| Triggers.TriggerList | alphaearth_frontend/src/pages/Triggers.tsx:17 | a null body lists no trigger |
| Triggers.GetIcon | alphaearth_frontend/src/pages/Triggers.tsx:19-24 | Wind, then Rain, then River, case-sensitive, Activity otherwise |
| Triggers.GetProgressValue | alphaearth_frontend/src/pages/Triggers.tsx:26-28 | at most 100; exactly 100 when current ≥ threshold, otherwise current/threshold·100; non-negative iff current is |
| Triggers.IsNearThreshold | alphaearth_frontend/src/pages/Triggers.tsx:68 | near iff unflagged and current ≥ 0.9·threshold |
| Triggers.Status | alphaearth_frontend/src/pages/Triggers.tsx:125-140 | Exceeded iff flagged; Approaching iff unflagged and near; Safe otherwise; the stored flag decides |
| Triggers.ActiveCount | alphaearth_frontend/src/pages/Triggers.tsx:48 | the "currently active" figure is the number of flagged triggers |
| Triggers.MonitoringCount | alphaearth_frontend/src/pages/Triggers.tsx:59 | the "below threshold" figure is the number of unflagged triggers |
| Triggers.PayoutBannerIsExceeded | alphaearth_frontend/src/pages/Triggers.tsx:145-151 | the automatic-payout banner shows exactly on the cards whose status is Threshold Exceeded |
| Triggers.SummaryCountsAddUp | alphaearth_frontend/src/pages/Triggers.tsx:48-59 | active + monitoring = all triggers |
| Triggers.WindSpeedExample | alphaearth_frontend/src/data/mockData.ts:157-165 | the sample wind trigger (160 over 150) shows full progress, Exceeded and the wind icon |
| Claims.ClaimsPage.constructor | alphaearth_frontend/src/pages/Claims.tsx:10-13 | no claims, no selection, empty slots |
| Claims.ClaimsPage.Load | alphaearth_frontend/src/pages/Claims.tsx:16-30 | on success the list is the normalized body and its first claim is selected, or the selection stays if it is empty; a failure or a null body changes nothing and reports an error |
| Claims.ClaimsPage.SelectClaim | alphaearth_frontend/src/pages/Claims.tsx:87 | the clicked claim is selected |
| Claims.ClaimsPage.HandleImageUpload | alphaearth_frontend/src/pages/Claims.tsx:32-37 | a chosen file fills only the named slot; no file changes nothing |
| Claims.ClaimsPage.AnalyzeEnabled | alphaearth_frontend/src/pages/Claims.tsx:175 | the button is enabled iff both images are set |
| Claims.ClaimsPage.AnalyzeRequest | alphaearth_frontend/src/pages/Claims.tsx:40-48 | a request exists iff both images and a claim are present; it carries the claim's location and disaster type |
| Claims.ClaimsPage.ReceiveAnalysis | alphaearth_frontend/src/pages/Claims.tsx:49-62 | on success the claim selected when the response arrives gets damage score percentage/100 and nothing else changes (no selection stays none); on failure nothing changes and an error is reported |
| Claims.ClaimsPage.HandleAnalyze | alphaearth_frontend/src/pages/Claims.tsx:39-63 | nothing is sent unless both images and a claim are present; with no click while the request is pending, the result lands on the claim the request was built from |
| Claims.ClaimsPage.AnalyzeThenSelect | alphaearth_frontend/src/pages/Claims.tsx:43-58 | a click on another claim while the request is pending makes the result land on that other claim, though the request carried the first claim's location |
| Claims.GetStatusIcon | alphaearth_frontend/src/pages/Claims.tsx:65-71 | check iff Approved, X iff Rejected, clock otherwise |
| Claims.StatusBadgeVariant | alphaearth_frontend/src/pages/Claims.tsx:112-117 | default iff Approved, destructive iff Rejected, secondary otherwise |
| Claims.IconAndBadgeAgree | alphaearth_frontend/src/pages/Claims.tsx:65-71 | for the four statuses the icon and the badge pick the same case; clock exactly for Pending and Under Review |
| SeedData.CitySetMembers | alphaearth_backend/api/management/commands/seed_data.py:36-39 | a city is collected iff some row has both STATE and CZ_NAME and names it "CZ_NAME, STATE" |
| SeedData.CollectCities | alphaearth_backend/api/management/commands/seed_data.py:36-39 | the loop builds exactly that set |
| SeedData.Cities | alphaearth_backend/api/management/commands/seed_data.py:40-45 | a non-empty list without repetition; the fallback list after a failed download or when no city was collected; otherwise the collected cities in the set's iteration order |
| SeedData.NoCsvNoClaims | alphaearth_backend/api/management/commands/seed_data.py:80 | a failed download, or rows without any place, seed no claim |
| SeedData.SeedZone | alphaearth_backend/api/management/commands/seed_data.py:50-60 | a zone named after its city with default sea level and events, valid when the draws lie in their ranges |
| SeedData.ZoneCount | alphaearth_backend/api/management/commands/seed_data.py:49 | cities[:10] has all the cities or exactly 10 |
| SeedData.SeedZones | alphaearth_backend/api/management/commands/seed_data.py:49-60 | zone k is seeded from city k; at most 10 zones, all valid, with distinct names for distinct cities |
| SeedData.AssetIdInjective | alphaearth_backend/api/management/commands/seed_data.py:67 | different counters give different "A"+3-digit ids, four characters below 1000 |
| SeedData.SeedAssets | alphaearth_backend/api/management/commands/seed_data.py:65-75 | 20 active assets A000..A019 with the drawn owner, type, city and value, and unique ids |
| SeedData.TriggerIdInjective | alphaearth_backend/api/management/commands/seed_data.py:138 | different counters give different "T"+3-digit ids |
| SeedData.SeedTriggers | alphaearth_backend/api/management/commands/seed_data.py:136-144 | five triggers T000..T004 created through save, each flagged iff current ≥ threshold; the table stays valid |
| SeedData.ClassifyEvent | alphaearth_backend/api/management/commands/seed_data.py:86-94 | on the lower-cased type: Flood iff "flood"; Wildfire iff "fire" without "flood"; Storm iff "storm", "tornado" or "hurricane" without either; never Earthquake or Drought |
| SeedData.WildfireContainsFire | alphaearth_backend/api/management/commands/seed_data.py:89 | any text containing "wildfire" contains "fire", so that test is redundant |
| SeedData.FlashFloodIsFlood | alphaearth_backend/api/management/commands/seed_data.py:87-88 | "Flash Flood" is a Flood |
| SeedData.TornadoIsStorm | alphaearth_backend/api/management/commands/seed_data.py:91-92 | "Tornado" is a Storm |
| SeedData.HailIsSkipped | alphaearth_backend/api/management/commands/seed_data.py:93-94 | "Hail" is skipped |
| SeedData.ParseDecimal | alphaearth_backend/api/management/commands/seed_data.py:107-108 | whatever it reads is non-negative (what it reads is stated by ParseDecimalDigits and ParseDecimalPoint) |
| SeedData.ParseDecimalDigits | alphaearth_backend/api/management/commands/seed_data.py:107 | a non-empty digit string reads as the count it spells |
| SeedData.ParseDecimalPoint | alphaearth_backend/api/management/commands/seed_data.py:107 | digits w, a point and digits f read as DecimalValue(w, f) |
| SeedData.DecimalValueIsRatio | alphaearth_backend/api/management/commands/seed_data.py:107 | DecimalValue(w, f) is w + f/10^n for the n digits of f |
| SeedData.FractionValueIsRatio | alphaearth_backend/api/management/commands/seed_data.py:107 | the digits after the point are worth f/10^n for the n digits of f |
| SeedData.CleanAmount | alphaearth_backend/api/management/commands/seed_data.py:101 | the one-pass cleaning is never longer than the cell |
| SeedData.CleanAmountIsPipeline | alphaearth_backend/api/management/commands/seed_data.py:101 | the one-pass cleaning is the replace("$"), then replace(","), then upper() of the cell |
| SeedData.CleanAmountDropsSeparators | alphaearth_backend/api/management/commands/seed_data.py:101 | no "$" and no "," remain |
| SeedData.CleanAmountConcat | alphaearth_backend/api/management/commands/seed_data.py:101 | cleaning works piecewise on concatenated text |
| SeedData.CleanAmountDropsSeparator | alphaearth_backend/api/management/commands/seed_data.py:101 | a "$" or "," anywhere in the cell is dropped |
| SeedData.CleanAmountKeeps | alphaearth_backend/api/management/commands/seed_data.py:101 | text without "$", "," and lower-case letters is already clean |
| SeedData.ReadAmount | alphaearth_backend/api/management/commands/seed_data.py:102-108 | a reading is non-negative; only text holding K or M can fail to read |
| SeedData.ParseDamage | alphaearth_backend/api/management/commands/seed_data.py:101-108 | a parsed amount is non-negative; only a K or M amount can raise |
| SeedData.ParseDamageReadsCleanText | alphaearth_backend/api/management/commands/seed_data.py:101-108 | two cells that clean to the same text read the same |
| SeedData.ParseDamagePlain | alphaearth_backend/api/management/commands/seed_data.py:106-108 | a non-empty digit string reads as its value |
| SeedData.ParseDamageThousands | alphaearth_backend/api/management/commands/seed_data.py:102-103 | digits followed by K read as their value times 1000 |
| SeedData.ParseDamageMillions | alphaearth_backend/api/management/commands/seed_data.py:104-105 | digits followed by M read as their value times 1 000 000 |
| SeedData.ReadDecimalThousands | alphaearth_backend/api/management/commands/seed_data.py:102-103 | the cleaned text w.fK reads as DecimalValue(w, f) thousands |
| SeedData.ReadDecimalMillions | alphaearth_backend/api/management/commands/seed_data.py:104-105 | the cleaned text w.fM reads as DecimalValue(w, f) millions |
| SeedData.ParseDamageDecimalThousands | alphaearth_backend/api/management/commands/seed_data.py:101-103 | w.fK reads as DecimalValue(w, f) times 1000 |
| SeedData.ParseDamageDecimalMillions | alphaearth_backend/api/management/commands/seed_data.py:101-105 | w.fM reads as DecimalValue(w, f) times 1 000 000 |
| SeedData.ParseDamageDecimalLowerMillions | alphaearth_backend/api/management/commands/seed_data.py:101-105 | w.fm, with a lower-case m, reads as DecimalValue(w, f) times 1 000 000 |
| SeedData.ParseDamageDropsSeparator | alphaearth_backend/api/management/commands/seed_data.py:101 | a cell reads as it would with one "$" or "," taken out |
| SeedData.ParseDamageLowerUnit | alphaearth_backend/api/management/commands/seed_data.py:101 | a trailing k or m reads as K or M |
| SeedData.ParseDamageDollarSeparated | alphaearth_backend/api/management/commands/seed_data.py:101-108 | "$" + a + "," + b, for digit strings, reads as the count a+b spells |
| SeedData.ParseDamageDollarThousands | alphaearth_backend/api/management/commands/seed_data.py:101-103 | "$1.5K" reads as 1500 |
| SeedData.ParseDamageSeparator | alphaearth_backend/api/management/commands/seed_data.py:101-108 | "$1,500" reads as 1500 |
| SeedData.ParseDamageLowerMillions | alphaearth_backend/api/management/commands/seed_data.py:101-105 | "2.50m" reads as 2 500 000 |
| SeedData.ParseDamageEdges | alphaearth_backend/api/management/commands/seed_data.py:102-108 | "K" raises and "2B" silently reads as 0 |
| SeedData.DamageScoreOf | alphaearth_backend/api/management/commands/seed_data.py:122 | at most 1; 1 from a million on, amount/1 000 000 below; in [0,1] for non-negative amounts |
| SeedData.ClaimIdInjective | alphaearth_backend/api/management/commands/seed_data.py:116 | different counters give different "C"+6-digit ids |
| SeedData.RowOutcome | alphaearth_backend/api/management/commands/seed_data.py:85-108 | a row yields a claim only with a classified event type and both STATE and CZ_NAME, placed at "CZ_NAME, STATE" with a non-negative amount; it can raise only after both checks pass; otherwise it is skipped |
| SeedData.ClaimOf | alphaearth_backend/api/management/commands/seed_data.py:115-128 | the written claim has the counter's id, the drawn asset's id and the drawn status, is not auto-approved, and passes its validator when the amount is non-negative |
| SeedData.Seeded | alphaearth_backend/api/management/commands/seed_data.py:84-129 | the loop writes at most one claim per row; the claims written before a raise stay in the table beside the error |
| SeedData.SeededErrorPersists | alphaearth_backend/api/management/commands/seed_data.py:103 | a raise on one row ends the whole command with that error |
| SeedData.SeedClaims | alphaearth_backend/api/management/commands/seed_data.py:84-129 | the loop, with its counter starting at 1 and raised only on a write, computes the claims written and the error, if any, of the row fold; the claim with counter k gets id ClaimId(k) |
| SeedData.SeededClaimsShape | alphaearth_backend/api/management/commands/seed_data.py:116-129 | the k-th written claim has id C followed by k+1 in six digits; every written claim is valid and not auto-approved; this holds also for the claims kept after a raise |
| SeedData.SeededIdsUnique | alphaearth_backend/api/management/commands/seed_data.py:116 | the written claim ids are pairwise different, also after a raise |
| SeedData.NoPlaceNoClaim | alphaearth_backend/api/management/commands/seed_data.py:96-97 | rows without STATE or CZ_NAME write nothing and raise nothing |
| Consistency.RiskLevelIsBand | alphaearth_frontend/src/pages/RiskScoring.tsx:67-71 | the page's badge is the badge of the classifier's band |
| Consistency.MarkerColorIsBand | alphaearth_frontend/src/pages/AssetMap.tsx:145 | zone and asset markers are coloured by the classifier's band |
| Consistency.AssetBadgeIsRiskLevel | alphaearth_frontend/src/pages/AssetMap.tsx:195 | the asset badge equals getRiskLevel(score).color |
| Consistency.ZoneBucketsAreBands | alphaearth_backend/api/views.py:231-235 | the dashboard buckets and the high-risk filter are the classifier's bands |
| Consistency.DashboardZoneCountsAreBands | alphaearth_backend/api/views.py:231-235 | the dashboard's high, medium and low counts are the numbers of zones the classifier puts in the High, Medium and Low bands |
| Consistency.ActiveCountIsDashboardFigure | alphaearth_frontend/src/pages/Triggers.tsx:48 | the trigger page's active figure equals the dashboard's active_triggers for the same table |
| Consistency.RiskJoinsAgree | alphaearth_frontend/src/pages/AssetMap.tsx:67-70 | the map's lookup is the serializer's lookup with None read as 0 |
| Consistency.PercentageRoundTrip | alphaearth_frontend/src/pages/Claims.tsx:50-57 | the stored percentage over 100 is the backend's damage score |
| Consistency.ClaimsRequestValidates | alphaearth_frontend/src/pages/Claims.tsx:43-48 | the page's request for a stored claim passes the upload validator with image files and a fitting location, and reads back the claim's disaster type |
| Consistency.SavedTriggerStatus | alphaearth_frontend/src/pages/Triggers.tsx:125-140 | on a saved trigger Exceeded iff current ≥ threshold, and Approaching means 0.9·threshold ≤ current < threshold |
| Consistency.LocationSearchesAgree | alphaearth_backend/api/views.py:61-62 | the backend's zone search lists what the page's search box shows for the same text |

## Left out

- Object detection, image decoding and the similarity fallback are not modelled: they are foreign numeric code. The detector's boxes and the image score are inputs.
- Views.DamageAnalysisPost: requires an image score in [0,1]. The similarity fallback `1 - ssim` can exceed 1 for negatively correlated images, and that case is not modelled.
- Views.DroughtNeverAutoApproved: holds only for an image score of at most 1. The similarity fallback returns `round(1 - ssim, 2)`, up to 2, although the docstring of `compute_damage_score` says [0,1]; `Views.DroughtAutoApprovalCutoff` gives the exact cut-off 31/30 above which a Drought claim is auto-approved.
- Views.AssessedRiskScore: computed on exact reals. The source sums the three draws in binary floating point, and the sum can fall just below the exact value, so `int()` gives one less: draws 0.7, 0.7, 0.7 give 69 in the program and 70 here, and 0.7, 0.1, 0.1 give 29 and 30.
- Views.ComputeDamageScore: the `not all_objects` branch is omitted. It cannot be reached once the fallback has taken the case of two empty maps.
- Views.SetClaimStatus: the claim is addressed by its unique claim_id, not by the database primary key in the URL.
- Views.Assess: coordinates are reals, not the strings `float()` would convert. The random draws are a parameter, and their rounding is not modelled. The new zone's score is `Views.AssessedRiskScore` on exact reals, so for some draws it is one above the program's and the zone lands in a higher band across the 70 or 50 cut-off.
- Triggers.GetProgressValue: requires a threshold above 0. JavaScript's division by zero gives Infinity or NaN, which has no counterpart in `real`.
- SeedData.ParseDecimal: accepts digits with at most one point. Python's `float()` also accepts signs, exponents, surrounding whitespace, underscores, "inf" and "nan".
- SeedData.Cities: the set's iteration order is a parameter, because Python leaves it unspecified.
- The seeding command's HTTP download, gzip and CSV decoding, table clearing, console output and date parsing are I/O. The rows are a parameter.
- `update_or_create` in the claim loop is modelled as a create: the tables are cleared first and the counter ids never repeat.
- Lower- and upper-casing are ASCII only. Django's `icontains` and Python's `.lower()`/`.upper()` map Unicode case too.
- Dates, image and URL fields, timestamps, Decimal precision and the `max_length` of the model's text columns are not modelled. The one exception is the 200-character upload location.
- The default ordering of claims, triggers and assets is not modelled: tables are sequences in insertion order. The zone ordering is modelled where it decides a result: `Views.HighestScoring` picks a zone of the largest score, and the listing ordered highest score first is `Models.OrderedByRiskDesc`. Among zones of equal score the database's order is unspecified; the model takes the earliest stored.
- Serializers.Strip: only the six ASCII whitespace characters are removed. The character field trims with Python's Unicode-aware `str.strip`.
- Serializers.ValidateUpload: the character field's check that rejects a location containing a NUL character is not modelled.
- SeedData.RowOutcome: a CSV row is a map from column to text. `csv.DictReader` fills a short row's missing columns with None, and `.lower()` or `.replace()` on None then raises; a map cannot hold None, so that crash is not modelled.
- SeedData.Seeded: a raise ends the whole command, so the triggers are then never seeded. The model has no member composing the whole command; the claim fold and the trigger seeding are separate.
- Models.ParametricTrigger.Save: rows are addressed by trigger_id rather than by the primary key, and a saved trigger's trigger_id is taken as unchanged since its last save.
- Claims.ClaimsPage.HandleAnalyze: the request and its response are two steps, `AnalyzeRequest` and `ReceiveAnalysis`. Only one interleaving, a click on another claim while the request is pending, has its own member (`AnalyzeThenSelect`).
- The ORM, the CRUD routes, the filter backends, the admin, URL routing and the AI model insight table are not modelled: they are configuration.
- Rendering is not modelled: the map widget, the fly-to animation, the radar chart and the loading screens. Toasts are modelled only as the notice a handler returns.
- `get_risk_score` returns None when the database query itself fails. Database failures are not modelled.
- The frontend's `@/lib/api` client module is not part of this model. The pages are modelled as receiving the backend's JSON unchanged; a renaming or reshaping there would change what they show, the asset icon above among it.
- The asset map's centre reads `latitude` and `longitude` fields that the asset JSON does not have. Map positioning is not modelled.

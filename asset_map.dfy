/** The asset map page (alphaearth_frontend/src/pages/AssetMap.tsx): the
    location join from an asset to its zone's score, the marker colours and
    badges, the zone-to-asset match of the zone markers, the asset icon, and
    the selection state. The map itself (Leaflet, the fly-to effect, popups)
    is rendering and is not modelled. */
module AssetMap {
  import opened Common
  import opened Models
  import opened Responses

  /** An asset as the page reads it from the asset list. `type_name` is the
      `type` property the page reads for the icon and the labels. */
  datatype AssetJson = AssetJson(
    asset_id: string,
    type_name: Option<string>,
    location_name: string,
    active: bool,
    insured_value_usd: real)

  /** An asset row as the asset serializer sends it: the type goes out under
      `asset_type`, so the `type` property the page reads is undefined. */
  function FromRow(a: Asset): (j: AssetJson)
    ensures j.asset_id == a.asset_id && j.location_name == a.location_name && j.type_name.None?
  {
    AssetJson(a.asset_id, None, a.location_name, a.active, a.insured_value_usd)
  }

  // ---------------------------------------------------------------------------
  // getRiskForLocation
  // ---------------------------------------------------------------------------

  /** The score of the first zone whose name equals `name` exactly, 0 when no
      zone has that name (`|| 0` also maps a falsy score, which is 0, to 0). */
  function GetRiskForLocation(zones: seq<RiskZone>, name: string): (r: int)
    ensures (forall j :: 0 <= j < |zones| ==> zones[j].location_name != name) ==> r == 0
    ensures forall i :: (0 <= i < |zones| && zones[i].location_name == name &&
                         (forall j :: 0 <= j < i ==> zones[j].location_name != name)) ==> r == zones[i].risk_score
  {
    match FindFirst(zones, (z: RiskZone) => z.location_name, name)
    case None => 0
    case Some(z) => z.risk_score
  }

  // ---------------------------------------------------------------------------
  // Colours, badges and icons
  // ---------------------------------------------------------------------------

  datatype MarkerColor = Red | Orange | Green

  /** The colour rule written out for zone markers and again for asset markers. */
  function ScoreColor(score: int): (c: MarkerColor)
    ensures c == Red <==> score >= 70
    ensures c == Orange <==> 50 <= score < 70
    ensures c == Green <==> score < 50
  {
    if score >= 70 then Red else if score >= 50 then Orange else Green
  }

  /** The variant of an asset's risk badge in the asset list. */
  function AssetBadgeVariant(score: int): (v: BadgeVariant)
    ensures v == DestructiveBadge <==> score >= 70
    ensures v == SecondaryBadge <==> 50 <= score < 70
    ensures v == DefaultBadge <==> score < 50
  {
    if score >= 70 then DestructiveBadge else if score >= 50 then SecondaryBadge else DefaultBadge
  }

  /** The badges of an asset's list entry: its risk badge, then an outline
      "Inactive" badge when the asset is not active. */
  function AssetBadges(asset: AssetJson, zones: seq<RiskZone>): (r: seq<BadgeVariant>)
    ensures |r| == (if asset.active then 1 else 2)
    ensures r[0] == AssetBadgeVariant(GetRiskForLocation(zones, asset.location_name))
    ensures OutlineBadge in r <==> !asset.active
  {
    [AssetBadgeVariant(GetRiskForLocation(zones, asset.location_name))]
    + (if asset.active then [] else [OutlineBadge])
  }

  datatype AssetIcon = Sprout | Home | Building

  /** getAssetIcon: no type or an empty one is a sprout; a type naming
      "Residential" is a house even when it also names "Commercial"; a type
      naming "Commercial" is a building; anything else is a sprout. */
  function GetAssetIcon(type_name: Option<string>): (r: AssetIcon)
    ensures r == Home <==> type_name.Some? && Contains(type_name.value, "Residential")
    ensures r == Building <==> type_name.Some? && !Contains(type_name.value, "Residential") &&
                                Contains(type_name.value, "Commercial")
  {
    if type_name.None? || type_name.value == "" then Sprout
    else if Contains(type_name.value, "Residential") then Home
    else if Contains(type_name.value, "Commercial") then Building
    else Sprout
  }

  /** A residential property would show the house icon if its type were sent. */
  lemma ResidentialIcon()
    ensures GetAssetIcon(Some(AssetTypeName(ResidentialProperty))) == Home
  {
    var name := AssetTypeName(ResidentialProperty);
    assert name[0..11] == "Residential";
    ContainsAt(name, "Residential", 0);
  }

  /** A commercial building would show the building icon if its type were sent. */
  lemma CommercialIcon()
    ensures GetAssetIcon(Some(AssetTypeName(CommercialBuilding))) == Building
  {
    var name := AssetTypeName(CommercialBuilding);
    assert name[0..10] == "Commercial";
    ContainsAt(name, "Commercial", 0);
    NotContainedWithoutFirstChar(name, "Residential");
  }

  /** Farm land, industrial facilities and ports would show the sprout. */
  lemma OtherTypesIcon(t: AssetType)
    requires t == FarmLand || t == IndustrialFacility || t == Port
    ensures GetAssetIcon(Some(AssetTypeName(t))) == Sprout
  {
    var name := AssetTypeName(t);
    NotContainedWithoutFirstChar(name, "Residential");
    NotContainedWithoutFirstChar(name, "Commercial");
  }

  // ---------------------------------------------------------------------------
  // Markers
  // ---------------------------------------------------------------------------

  /** A zone's circle marker and the asset its click selects. */
  datatype ZoneMarker = ZoneMarker(color: MarkerColor, radius: int, fill_opacity: real, weight: int, asset: Option<AssetJson>)

  /** The first asset at the zone's location (exact name) emphasises the zone's marker. */
  function ZoneMarkerOf(zone: RiskZone, assets: seq<AssetJson>): (m: ZoneMarker)
    ensures m.color == ScoreColor(zone.risk_score)
    ensures m.asset.Some? <==> exists a :: a in assets && a.location_name == zone.location_name
    ensures m.asset.Some? ==> m.asset.value in assets && m.asset.value.location_name == zone.location_name
    ensures forall i :: (0 <= i < |assets| && assets[i].location_name == zone.location_name &&
                         (forall j :: 0 <= j < i ==> assets[j].location_name != zone.location_name)) ==> m.asset == Some(assets[i])
    ensures m.asset.Some? ==> m.radius == 12 && m.fill_opacity == 0.7 && m.weight == 2
    ensures m.asset.None? ==> m.radius == 8 && m.fill_opacity == 0.5 && m.weight == 1
  {
    var asset := FindFirst(assets, (a: AssetJson) => a.location_name, zone.location_name);
    if asset.Some? then
      ZoneMarker(ScoreColor(zone.risk_score), 12, 0.7, 2, asset)
    else
      assert forall a :: a in assets ==> a.location_name != zone.location_name;
      ZoneMarker(ScoreColor(zone.risk_score), 8, 0.5, 1, None)
  }

  /** An asset's circle marker. */
  datatype AssetMarker = AssetMarker(color: MarkerColor, radius: int, fill_opacity: real, weight: int, dashed: bool)

  predicate IsSelected(selected: Option<AssetJson>, asset: AssetJson) {
    selected.Some? && selected.value.asset_id == asset.asset_id
  }

  /** The selected asset's marker is larger, more opaque, heavier and dashed;
      the colour follows the score of the asset's location. */
  function AssetMarkerOf(asset: AssetJson, zones: seq<RiskZone>, selected: Option<AssetJson>): (m: AssetMarker)
    ensures m.radius == 14 <==> IsSelected(selected, asset)
    ensures m.radius == 10 <==> !IsSelected(selected, asset)
    ensures m.dashed <==> IsSelected(selected, asset)
    ensures m.color == ScoreColor(GetRiskForLocation(zones, asset.location_name))
  {
    var color := ScoreColor(GetRiskForLocation(zones, asset.location_name));
    if IsSelected(selected, asset) then AssetMarker(color, 14, 0.9, 3, true)
    else AssetMarker(color, 10, 0.6, 1, false)
  }

  /** With unique asset ids at most one asset marker is drawn large. */
  lemma {:induction false} AtMostOneLargeMarker(assets: seq<AssetJson>, zones: seq<RiskZone>, selected: Option<AssetJson>)
    requires UniqueKeys(assets, (a: AssetJson) => a.asset_id)
    ensures Count(assets, (a: AssetJson) => AssetMarkerOf(a, zones, selected).radius == 14) <= 1
  {
    var large := (a: AssetJson) => AssetMarkerOf(a, zones, selected).radius == 14;
    if assets != [] {
      var rest := assets[1..];
      assert UniqueKeys(rest, (a: AssetJson) => a.asset_id) by {
        forall i, j | 0 <= i < j < |rest| ensures rest[i].asset_id != rest[j].asset_id {
          assert rest[i] == assets[i + 1] && rest[j] == assets[j + 1];
        }
      }
      if large(assets[0]) {
        forall a | a in rest ensures !large(a) {
          var j :| 0 <= j < |rest| && rest[j] == a;
          assert assets[j + 1] == a;
        }
        CountNone(rest, large);
      } else {
        AtMostOneLargeMarker(rest, zones, selected);
      }
    }
  }

  // ---------------------------------------------------------------------------
  // Page state
  // ---------------------------------------------------------------------------

  class AssetMapPage {
    var zones: seq<RiskZone>
    var assets: seq<AssetJson>
    var selectedAsset: Option<AssetJson>

    constructor ()
      ensures zones == [] && assets == [] && selectedAsset == None
    {
      zones, assets, selectedAsset := [], [], None;
    }

    /** The two queries settle; data still undefined reads as Null. Both lists
        are normalized with the null guard. */
    method Receive(zonesBody: Body<RiskZone>, assetsBody: Body<AssetJson>)
      modifies this`zones, this`assets
      ensures zones == NormalizeGuarded(zonesBody) && assets == NormalizeGuarded(assetsBody)
    {
      zones := NormalizeGuarded(zonesBody);
      assets := NormalizeGuarded(assetsBody);
    }

    /** The map and the lists are drawn only when both lists are non-empty. */
    function MapShown(): (shown: bool)
      reads this
      ensures shown <==> |zones| > 0 && |assets| > 0
    {
      !(|assets| == 0 || |zones| == 0)
    }

    /** The selection effect: the first asset, only when nothing is selected. */
    method SelectDefault()
      modifies this`selectedAsset
      ensures old(selectedAsset).Some? ==> selectedAsset == old(selectedAsset)
      ensures old(selectedAsset).None? && assets != [] ==> selectedAsset == Some(assets[0])
      ensures old(selectedAsset).None? && assets == [] ==> selectedAsset == None
    {
      if |assets| > 0 && selectedAsset.None? {
        selectedAsset := Some(assets[0]);
      }
    }

    /** Clicking a zone marker selects its matched asset, if it has one. */
    method ClickZone(zone: RiskZone)
      modifies this`selectedAsset
      ensures ZoneMarkerOf(zone, assets).asset.Some? ==> selectedAsset == ZoneMarkerOf(zone, assets).asset
      ensures ZoneMarkerOf(zone, assets).asset.None? ==> selectedAsset == old(selectedAsset)
    {
      var m := ZoneMarkerOf(zone, assets);
      if m.asset.Some? {
        selectedAsset := m.asset;
      }
    }

    /** Clicking an asset marker or list entry selects that asset. */
    method ClickAsset(asset: AssetJson)
      modifies this`selectedAsset
      ensures selectedAsset == Some(asset)
      ensures AssetMarkerOf(asset, zones, selectedAsset).radius == 14
    {
      selectedAsset := Some(asset);
    }
  }
}

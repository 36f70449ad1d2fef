/** The claims page (alphaearth_frontend/src/pages/Claims.tsx): the loaded
    claim list and its selection, the two image slots, the analyze action that
    rewrites only the selected claim's damage score, and the status icon and
    badge rules. The network call is an input: its outcome is given to the
    handler, and the request it would send is returned. */
module Claims {
  import opened Common
  import opened Models
  import opened Serializers
  import opened Responses

  datatype Slot = Pre | Post

  /** The toast the page raises. */
  datatype Notice = Silent | LoadFailed | AnalysisComplete(percentage: real) | AnalysisFailed

  class ClaimsPage {
    var claims: seq<InsuranceClaim>
    var selectedClaim: Option<InsuranceClaim>
    var preImage: Option<ImageFile>
    var postImage: Option<ImageFile>

    /** Mounted: no claims, no selection, both slots empty. */
    constructor ()
      ensures claims == [] && selectedClaim == None && preImage == None && postImage == None
    {
      claims, selectedClaim, preImage, postImage := [], None, None, None;
    }

    /** The load effect. `response` is the body the claims client returned,
        None when the request failed. The list is normalized without a null
        guard, so a null body fails like a failed request: the state is left
        as it was and a load error is reported. Otherwise the list replaces
        the claims and its first claim, if any, is selected. */
    method Load(response: Option<Body<InsuranceClaim>>) returns (notice: Notice)
      modifies this`claims, this`selectedClaim
      ensures notice == LoadFailed <==> response.None? || response.value.Null?
      ensures notice == LoadFailed ==> claims == old(claims) && selectedClaim == old(selectedClaim)
      ensures notice != LoadFailed ==> claims == NormalizeUnguarded(response.value).value
      ensures notice != LoadFailed && claims != [] ==> selectedClaim == Some(claims[0])
      ensures notice != LoadFailed && claims == [] ==> selectedClaim == old(selectedClaim)
      ensures notice == LoadFailed || notice == Silent
    {
      if response.None? {
        return LoadFailed;
      }
      match NormalizeUnguarded(response.value)
      case Err(_) =>
        notice := LoadFailed;
      case Ok(list) =>
        claims := list;
        if |list| > 0 {
          selectedClaim := Some(list[0]);
        }
        notice := Silent;
    }

    /** Clicking a claim in the list selects it; the list and the images stay. */
    method SelectClaim(c: InsuranceClaim)
      modifies this`selectedClaim
      ensures selectedClaim == Some(c)
    {
      selectedClaim := Some(c);
    }

    /** Choosing a file fills the named slot only; a dialog closed without a
        file (None) changes nothing. */
    method HandleImageUpload(slot: Slot, file: Option<ImageFile>)
      modifies this`preImage, this`postImage
      ensures file.None? ==> preImage == old(preImage) && postImage == old(postImage)
      ensures file.Some? && slot == Pre ==> preImage == file && postImage == old(postImage)
      ensures file.Some? && slot == Post ==> postImage == file && preImage == old(preImage)
    {
      if file.Some? {
        if slot == Pre {
          preImage := file;
        } else {
          postImage := file;
        }
      }
    }

    /** The analyze button is enabled once both images are chosen. */
    function AnalyzeEnabled(): (enabled: bool)
      reads this
      ensures enabled <==> preImage.Some? && postImage.Some?
    {
      !(preImage.None? || postImage.None?)
    }

    /** The analysis request for the current state: both images and the
        selected claim's location and disaster type, once all three are present. */
    function AnalyzeRequest(): (r: Option<UploadRequest>)
      reads this
      ensures r.Some? <==> preImage.Some? && postImage.Some? && selectedClaim.Some?
      ensures r.Some? ==> r.value.location_name == Some(selectedClaim.value.location_name)
      ensures r.Some? ==> r.value.disaster_type == Some(DisasterName(selectedClaim.value.disaster_type))
    {
      if preImage.None? || postImage.None? || selectedClaim.None? then None
      else Some(UploadRequest(preImage, postImage, Some(selectedClaim.value.location_name),
                              Some(DisasterName(selectedClaim.value.disaster_type))))
    }

    /** The second half of handleAnalyze, run when the call settles. `outcome`
        is the analysis the server returned, None when the call failed. The
        update is applied to whatever claim is selected at that moment
        (`prev => prev ? {...prev, damage_score} : prev`): only its damage score
        changes, to the returned percentage over 100, and the claim list is
        untouched. On failure nothing changes. */
    method ReceiveAnalysis(outcome: Option<DamageAnalysis>) returns (notice: Notice)
      modifies this`selectedClaim
      ensures outcome.None? ==> selectedClaim == old(selectedClaim) && notice == AnalysisFailed
      ensures outcome.Some? ==> notice == AnalysisComplete(outcome.value.damage_percentage)
      ensures outcome.Some? && old(selectedClaim).Some? ==>
                selectedClaim == Some(old(selectedClaim).value.(damage_score := outcome.value.damage_percentage / 100.0))
      ensures old(selectedClaim).None? ==> selectedClaim == None
    {
      match outcome
      case None =>
        notice := AnalysisFailed;
      case Some(result) =>
        var damageScore := result.damage_percentage;
        if selectedClaim.Some? {
          selectedClaim := Some(selectedClaim.value.(damage_score := damageScore / 100.0));
        }
        notice := AnalysisComplete(damageScore);
    }

    /** handleAnalyze when nothing happens while the request is pending.
        Without both images and a selected claim nothing happens and nothing is
        sent. Otherwise the request for the selected claim is sent and its
        result lands on that same claim. */
    method HandleAnalyze(outcome: Option<DamageAnalysis>) returns (sent: Option<UploadRequest>, notice: Notice)
      modifies this`selectedClaim
      ensures sent == old(AnalyzeRequest())
      ensures sent.None? ==> selectedClaim == old(selectedClaim) && notice == Silent
      ensures sent.Some? && outcome.None? ==> selectedClaim == old(selectedClaim) && notice == AnalysisFailed
      ensures sent.Some? && outcome.Some? ==>
                && selectedClaim == Some(old(selectedClaim).value.(damage_score := outcome.value.damage_percentage / 100.0))
                && notice == AnalysisComplete(outcome.value.damage_percentage)
    {
      sent := AnalyzeRequest();
      if sent.None? {
        return sent, Silent;
      }
      notice := ReceiveAnalysis(outcome);
    }

    /** handleAnalyze when the user clicks another claim while the request is
        pending: the request was built from the first claim, but its result is
        written into the claim selected when it arrives. */
    method AnalyzeThenSelect(other: InsuranceClaim, outcome: Option<DamageAnalysis>) returns (sent: Option<UploadRequest>, notice: Notice)
      modifies this`selectedClaim
      ensures sent == old(AnalyzeRequest())
      ensures sent.Some? ==> sent.value.location_name == Some(old(selectedClaim).value.location_name)
      ensures sent.Some? && outcome.Some? ==>
                selectedClaim == Some(other.(damage_score := outcome.value.damage_percentage / 100.0))
      ensures sent.None? || outcome.None? ==> selectedClaim == Some(other)
    {
      sent := AnalyzeRequest();
      SelectClaim(other);
      notice := Silent;
      if sent.Some? {
        notice := ReceiveAnalysis(outcome);
      }
    }
  }

  // ---------------------------------------------------------------------------
  // Status icon and badge
  // ---------------------------------------------------------------------------

  datatype StatusIcon = CheckIcon | XIcon | ClockIcon

  /** getStatusIcon on the status string the API sends. */
  function GetStatusIcon(status: string): (r: StatusIcon)
    ensures r == CheckIcon <==> status == "Approved"
    ensures r == XIcon <==> status == "Rejected"
  {
    if status == "Approved" then CheckIcon
    else if status == "Rejected" then XIcon
    else ClockIcon
  }

  /** The variant of the selected claim's status badge. */
  function StatusBadgeVariant(status: string): (v: BadgeVariant)
    ensures v == DefaultBadge <==> status == "Approved"
    ensures v == DestructiveBadge <==> status == "Rejected"
    ensures v == SecondaryBadge <==> status != "Approved" && status != "Rejected"
  {
    if status == "Approved" then DefaultBadge
    else if status == "Rejected" then DestructiveBadge
    else SecondaryBadge
  }

  /** Icon and badge tell the same story for every stored status: approved is a
      check on a default badge, rejected an X on a destructive badge, and the
      two open statuses a clock on a secondary badge. */
  lemma IconAndBadgeAgree(s: ClaimStatus)
    ensures GetStatusIcon(StatusName(s)) == CheckIcon <==> StatusBadgeVariant(StatusName(s)) == DefaultBadge
    ensures GetStatusIcon(StatusName(s)) == XIcon <==> StatusBadgeVariant(StatusName(s)) == DestructiveBadge
    ensures GetStatusIcon(StatusName(s)) == ClockIcon <==> s == Pending || s == UnderReview
  {
  }
}

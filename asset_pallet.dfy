/** The asset registry pallet as a stateful object: its four storage maps and
    its event log are fields, and each dispatchable is a method that runs the
    source's checks in order, asks the member registry for the caller's role,
    and writes storage only when every check passes. */
module AssetPallet {
  import opened Base
  import opened BoundedInfo
  import opened AssetTypes
  import opened MemberTypes
  import MemberSpec
  import MemberPallet
  import AssetSpec
  import AssetWorkflow

  datatype Event =
    | RequestAssetRegistration(who: AccountId, id: AssetId)
    | ProcessRequestAssetRegistration(who: AccountId, id: AssetId, approve: bool)
    | RequestAssetInsurance(who: AccountId, id: AssetId)
    | AssetInsurancePremiumQuoteUpdate(who: AccountId, id: AssetId, amount: Balance)
    | AssetInsurancePremiumDepositUpdate(who: AccountId, id: AssetId, amount: Balance)
    | AssetInsuranceApproved(who: AccountId, id: AssetId)
    | AssetInsuranceReclaim(who: AccountId, id: AssetId)
    | AssetInsuranceReclaimCommunityApproved(who: AccountId, id: AssetId)
    | AssetInsuranceReclaimInsurerApproved(who: AccountId, id: AssetId)
    | AssetHealthCheckRequest(who: AccountId, id: AssetId)
    | AssetHealthCheckHealthOfficerUpdate(who: AccountId, id: AssetId)
    | AssetHealthCheckCommunityUpdate(who: AccountId, id: AssetId)

  class Pallet {
    /** `AssetProfiles`: registered assets. */
    var assetProfiles: map<AssetId, AssetProfile>
    /** `AssetRegistrationInQ`: registrations awaiting a community leader. */
    var registrationInQ: map<AssetId, AssetProfile>
    /** `AssetInsuranceReclaimInQ`. */
    var reclaimInQ: map<AssetId, AssetInsuranceReClaim>
    /** `AssetHealthCheckRecInQ`. */
    var healthCheckInQ: map<AssetId, AssetHealthCheckRec>
    /** Events deposited so far, oldest first. */
    var events: seq<Event>

    function Store(): AssetSpec.AssetStore
      reads this
    {
      AssetSpec.AssetStore(assetProfiles, registrationInQ, reclaimInQ, healthCheckInQ)
    }

    ghost predicate Valid()
      reads this
    {
      Store().Valid()
    }

    /** Genesis: empty storage and no events. */
    constructor ()
      ensures Valid()
      ensures Store() == AssetSpec.AssetStore(map[], map[], map[], map[]) && events == []
    {
      assetProfiles := map[];
      registrationInQ := map[];
      reclaimInQ := map[];
      healthCheckInQ := map[];
      events := [];
    }

    /** `is_valid_member_role` on the member registry. */
    static method RequireRole(members: MemberPallet.Pallet, who: AccountId, role: MemberRole)
      returns (r: Outcome<AssetSpec.Error>)
      ensures r == AssetSpec.RequireRole(members.Store(), who, role)
    {
      var v := MemberSpec.HasRole(members.Store(), who, role);
      r := if v.Pass? then Pass else Fail(AssetSpec.Member(v.error));
    }

    /** `validate_asset_profile_info`, run as the source's loop. */
    static method CheckAssetProfileInfo(info: Option<seq<AssetProfileInfo>>) returns (r: Outcome<AssetSpec.Error>)
      ensures r == AssetSpec.ValidateAssetProfileInfo(info)
    {
      var v := ValidateInfos(info, AssetInfoLimits);
      r := match v
        case Pass => Pass
        case Fail(TooManyInfos) => Fail(AssetSpec.AssetProfileTooManyInfos)
        case Fail(InvalidInfoName) => Fail(AssetSpec.AssetProfileInvalidInfoName)
        case Fail(InvalidInfoValue) => Fail(AssetSpec.AssetProfileInvalidInfoValue);
    }

    /** `validate_asset_insurance_reclaim_info`, run as the source's loop. */
    static method CheckReclaimInfo(info: Option<seq<AssetInsuranceReClaimInfo>>) returns (r: Outcome<AssetSpec.Error>)
      ensures r == AssetSpec.ValidateReclaimInfo(info)
    {
      var v := ValidateInfos(info, ReclaimInfoLimits);
      r := match v
        case Pass => Pass
        case Fail(TooManyInfos) => Fail(AssetSpec.AssetInsuranceReClaimTooManyInfos)
        case Fail(InvalidInfoName) => Fail(AssetSpec.AssetInsuranceReClaimInvalidInfoName)
        case Fail(InvalidInfoValue) => Fail(AssetSpec.AssetInsuranceReClaimInvalidInfoValue);
    }

    /** `validate_asset_healthcheck_info`, run as the source's loop. */
    static method CheckHealthCheckInfo(info: Option<seq<AssetHealthCheckRecInfo>>) returns (r: Outcome<AssetSpec.Error>)
      ensures r == AssetSpec.ValidateHealthCheckInfo(info)
    {
      var v := ValidateInfos(info, HealthCheckInfoLimits);
      r := match v
        case Pass => Pass
        case Fail(TooManyInfos) => Fail(AssetSpec.AssetHealthCheckTooManyInfos)
        case Fail(InvalidInfoName) => Fail(AssetSpec.AssetHealthCheckInvalidInfoName)
        case Fail(InvalidInfoValue) => Fail(AssetSpec.AssetHealthCheckInvalidInfoValue);
    }

    /** `register_asset`: `who` is the signer, `now` the timestamp. */
    method RegisterAsset(
      members: MemberPallet.Pallet, who: AccountId, now: Moment, id: AssetId, info: Option<seq<AssetProfileInfo>>)
      returns (r: Outcome<AssetSpec.Error>)
      modifies this
      ensures AssetSpec.Step(r, Store()) == AssetSpec.RegisterAsset(old(Store()), members.Store(), who, now, id, info)
      ensures events == if r.Pass? then old(events) + [RequestAssetRegistration(who, id)] else old(events)
      ensures old(Valid()) ==> Valid()
    {
      if Valid() {
        AssetWorkflow.RegisterAssetPreservesValid(Store(), members.Store(), who, now, id, info);
      }
      r := RequireRole(members, who, AssetOwner);
      if r.Fail? {
        return;
      }
      r := AssetSpec.ValidateAssetId(id);
      if r.Fail? {
        return;
      }
      r := CheckAssetProfileInfo(info);
      if r.Fail? {
        return;
      }
      r := AssetSpec.ValidateIsNewAsset(Store(), id);
      if r.Fail? {
        return;
      }
      var profile := DefaultAssetProfileBuilder
        .UpdateAssetId(id)
        .UpdateOwner(who)
        .UpdateKeeper(who)
        .UpdateJoinedDate(now)
        .UpdateAssetProfileInfo(info)
        .Build();
      registrationInQ := registrationInQ[id := profile];
      events := events + [RequestAssetRegistration(who, id)];
    }

    /** `process_new_asset_register_request`. */
    method ProcessNewAssetRegisterRequest(members: MemberPallet.Pallet, who: AccountId, id: AssetId, approve: bool)
      returns (r: Outcome<AssetSpec.Error>)
      modifies this
      ensures AssetSpec.Step(r, Store())
              == AssetSpec.ProcessNewAssetRegisterRequest(old(Store()), members.Store(), who, id, approve)
      ensures events == if r.Pass? then old(events) + [ProcessRequestAssetRegistration(who, id, approve)]
                        else old(events)
      ensures old(Valid()) ==> Valid()
    {
      if Valid() {
        AssetWorkflow.ProcessNewAssetRegisterRequestPreservesValid(Store(), members.Store(), who, id, approve);
      }
      r := RequireRole(members, who, CommunityLeader);
      if r.Fail? {
        return;
      }
      if id !in registrationInQ {
        return Fail(AssetSpec.AssetIdInvalid);
      }
      var profile := registrationInQ[id];
      if approve {
        if profile.assetStatus != NewRegi {
          return Fail(AssetSpec.AssetStatusUnexpected);
        }
        assetProfiles := assetProfiles[id := profile.(assetStatus := InFarm)];
      }
      registrationInQ := registrationInQ - {id};
      events := events + [ProcessRequestAssetRegistration(who, id, approve)];
    }

    /** `request_insurance`. */
    method RequestInsurance(members: MemberPallet.Pallet, who: AccountId, id: AssetId)
      returns (r: Outcome<AssetSpec.Error>)
      requires AssetSpec.OwnerListsNonEmpty(Store())
      modifies this
      ensures AssetSpec.Step(r, Store()) == AssetSpec.RequestInsurance(old(Store()), members.Store(), who, id)
      ensures events == if r.Pass? then old(events) + [RequestAssetInsurance(who, id)] else old(events)
      ensures old(Valid()) ==> Valid()
    {
      if Valid() {
        AssetWorkflow.RequestInsurancePreservesValid(Store(), members.Store(), who, id);
      }
      r := RequireRole(members, who, AssetOwner);
      if r.Fail? {
        return;
      }
      r := AssetSpec.ValidateAssetOwnership(Store(), id, who);
      if r.Fail? {
        return;
      }
      r := AssetSpec.ValidateAssetInsuranceIsNone(Store(), id);
      if r.Fail? {
        return;
      }
      var insurance := DefaultAssetInsuranceBuilder.UpdateAssetId(id).Build();
      var profile := assetProfiles[id];
      if profile.assetStatus != InFarm {
        return Fail(AssetSpec.AssetStatusUnexpected);
      }
      assetProfiles := assetProfiles[id := profile.(assetInsurance := Some(insurance))];
      events := events + [RequestAssetInsurance(who, id)];
    }

    /** `update_insurance_premium`. */
    method UpdateInsurancePremium(members: MemberPallet.Pallet, who: AccountId, id: AssetId, premium: Balance)
      returns (r: Outcome<AssetSpec.Error>)
      modifies this
      ensures AssetSpec.Step(r, Store())
              == AssetSpec.UpdateInsurancePremium(old(Store()), members.Store(), who, id, premium)
      ensures events == if r.Pass? then old(events) + [AssetInsurancePremiumQuoteUpdate(who, id, premium)]
                        else old(events)
      ensures old(Valid()) ==> Valid()
    {
      if Valid() {
        AssetWorkflow.UpdateInsurancePremiumPreservesValid(Store(), members.Store(), who, id, premium);
      }
      r := RequireRole(members, who, Insurer);
      if r.Fail? {
        return;
      }
      r := AssetSpec.ValidateAssetInsuranceStatus(Store(), id, NewApplication);
      if r.Fail? {
        return;
      }
      var profile := assetProfiles[id];
      if profile.assetStatus != InFarm {
        return Fail(AssetSpec.AssetStatusUnexpected);
      }
      var insurance := profile.assetInsurance.value.(quotedPremium := premium, status := PremiumQuoted);
      assetProfiles := assetProfiles[id := profile.(assetInsurance := Some(insurance))];
      events := events + [AssetInsurancePremiumQuoteUpdate(who, id, premium)];
    }

    /** `deposit_insurance_premium`: the ledger transfer of `premiumDeposit`
        is not part of this model and its result is ignored by the source. */
    method DepositInsurancePremium(members: MemberPallet.Pallet, who: AccountId, id: AssetId, premiumDeposit: Balance)
      returns (r: Outcome<AssetSpec.Error>)
      requires AssetSpec.OwnerListsNonEmpty(Store())
      modifies this
      ensures AssetSpec.Step(r, Store())
              == AssetSpec.DepositInsurancePremium(old(Store()), members.Store(), who, id, premiumDeposit)
      ensures events == if r.Pass? then old(events) + [AssetInsurancePremiumDepositUpdate(who, id, premiumDeposit)]
                        else old(events)
      ensures old(Valid()) ==> Valid()
    {
      if Valid() {
        AssetWorkflow.DepositInsurancePremiumPreservesValid(Store(), members.Store(), who, id, premiumDeposit);
      }
      r := RequireRole(members, who, AssetOwner);
      if r.Fail? {
        return;
      }
      r := AssetSpec.ValidateAssetOwnership(Store(), id, who);
      if r.Fail? {
        return;
      }
      r := AssetSpec.ValidateAssetInsuranceStatus(Store(), id, PremiumQuoted);
      if r.Fail? {
        return;
      }
      var profile := assetProfiles[id];
      if profile.assetStatus != InFarm {
        return Fail(AssetSpec.AssetStatusUnexpected);
      }
      var insurance := profile.assetInsurance.value.(status := PremiumPaid);
      assetProfiles := assetProfiles[id := profile.(assetInsurance := Some(insurance))];
      events := events + [AssetInsurancePremiumDepositUpdate(who, id, premiumDeposit)];
    }

    /** `approve_insurance`. */
    method ApproveInsurance(members: MemberPallet.Pallet, who: AccountId, now: Moment, id: AssetId)
      returns (r: Outcome<AssetSpec.Error>)
      modifies this
      ensures AssetSpec.Step(r, Store()) == AssetSpec.ApproveInsurance(old(Store()), members.Store(), who, now, id)
      ensures events == if r.Pass? then old(events) + [AssetInsuranceApproved(who, id)] else old(events)
      ensures old(Valid()) ==> Valid()
    {
      if Valid() {
        AssetWorkflow.ApproveInsurancePreservesValid(Store(), members.Store(), who, now, id);
      }
      r := RequireRole(members, who, Insurer);
      if r.Fail? {
        return;
      }
      r := AssetSpec.ValidateAssetInsuranceStatus(Store(), id, PremiumPaid);
      if r.Fail? {
        return;
      }
      var profile := assetProfiles[id];
      if profile.assetStatus != InFarm {
        return Fail(AssetSpec.AssetStatusUnexpected);
      }
      var insurance := profile.assetInsurance.value.(startDate := now, expiryDate := now,
                                                     status := AssetInsuranceStatus.Active);
      assetProfiles := assetProfiles[id := profile.(assetInsurance := Some(insurance))];
      events := events + [AssetInsuranceApproved(who, id)];
    }

    /** `request_insurance_reclaim`. */
    method RequestInsuranceReclaim(
      members: MemberPallet.Pallet, who: AccountId, id: AssetId, info: Option<seq<AssetInsuranceReClaimInfo>>)
      returns (r: Outcome<AssetSpec.Error>)
      requires AssetSpec.OwnerListsNonEmpty(Store())
      modifies this
      ensures AssetSpec.Step(r, Store())
              == AssetSpec.RequestInsuranceReclaim(old(Store()), members.Store(), who, id, info)
      ensures events == if r.Pass? then old(events) + [AssetInsuranceReclaim(who, id)] else old(events)
      ensures old(Valid()) ==> Valid()
    {
      if Valid() {
        AssetWorkflow.RequestInsuranceReclaimPreservesValid(Store(), members.Store(), who, id, info);
      }
      r := RequireRole(members, who, AssetOwner);
      if r.Fail? {
        return;
      }
      r := AssetSpec.ValidateAssetOwnership(Store(), id, who);
      if r.Fail? {
        return;
      }
      r := AssetSpec.ValidateAssetStatus(Store(), id, InFarm);
      if r.Fail? {
        return;
      }
      r := AssetSpec.ValidateAssetInsuranceStatus(Store(), id, AssetInsuranceStatus.Active);
      if r.Fail? {
        return;
      }
      r := CheckReclaimInfo(info);
      if r.Fail? {
        return;
      }
      r := AssetSpec.ValidateIsNewInsuranceReclaim(Store(), id);
      if r.Fail? {
        return;
      }
      var reclaim := DefaultAssetInsuranceReClaimBuilder.UpdateAssetId(id).UpdateOwnerNote(info).Build();
      reclaimInQ := reclaimInQ[id := reclaim];
      events := events + [AssetInsuranceReclaim(who, id)];
    }

    /** The checks shared by the three decisions on a staged reclaim or
        health check; `noteCheck` is the decider's note validated. */
    method DecisionPrechecks(
      members: MemberPallet.Pallet, who: AccountId, role: MemberRole, id: AssetId, noteCheck: Outcome<AssetSpec.Error>)
      returns (r: Outcome<AssetSpec.Error>)
      ensures r == AssetSpec.DecisionPrechecks(Store(), members.Store(), who, role, id, noteCheck)
    {
      r := RequireRole(members, who, role);
      if r.Fail? {
        return;
      }
      r := AssetSpec.ValidateAssetStatus(Store(), id, InFarm);
      if r.Fail? {
        return;
      }
      r := AssetSpec.ValidateAssetInsuranceStatus(Store(), id, AssetInsuranceStatus.Active);
      if r.Fail? {
        return;
      }
      r := noteCheck;
    }

    /** `community_approve_insurance_reclaim`. */
    method CommunityApproveInsuranceReclaim(
      members: MemberPallet.Pallet, who: AccountId, id: AssetId, approve: bool,
      note: Option<seq<AssetInsuranceReClaimInfo>>)
      returns (r: Outcome<AssetSpec.Error>)
      modifies this
      ensures AssetSpec.Step(r, Store())
              == AssetSpec.CommunityApproveInsuranceReclaim(old(Store()), members.Store(), who, id, approve, note)
      ensures events == if r.Pass? then old(events) + [AssetInsuranceReclaimCommunityApproved(who, id)]
                        else old(events)
      ensures old(Valid()) ==> Valid()
    {
      if Valid() {
        AssetWorkflow.CommunityApproveInsuranceReclaimPreservesValid(Store(), members.Store(), who, id, approve, note);
      }
      var noteCheck := CheckReclaimInfo(note);
      r := DecisionPrechecks(members, who, CommunityLeader, id, noteCheck);
      if r.Fail? {
        return;
      }
      if id !in reclaimInQ {
        return Fail(AssetSpec.AssetReClaimIdInvalid);
      }
      var reclaim := reclaimInQ[id];
      if reclaim.status != NewReclaim {
        return Fail(AssetSpec.AssetInsuranceReClaimStatusUnexpected);
      }
      var status := if approve then AssetInsuranceReClaimStatus.CommunityApproved else CommunityDisApproved;
      reclaimInQ := reclaimInQ[id := reclaim.(communityNote := note, status := status)];
      events := events + [AssetInsuranceReclaimCommunityApproved(who, id)];
    }

    /** `insurer_approve_insurance_reclaim`. */
    method InsurerApproveInsuranceReclaim(
      members: MemberPallet.Pallet, who: AccountId, id: AssetId, approve: bool,
      note: Option<seq<AssetInsuranceReClaimInfo>>)
      returns (r: Outcome<AssetSpec.Error>)
      modifies this
      ensures AssetSpec.Step(r, Store())
              == AssetSpec.InsurerApproveInsuranceReclaim(old(Store()), members.Store(), who, id, approve, note)
      ensures events == if r.Pass? then old(events) + [AssetInsuranceReclaimInsurerApproved(who, id)]
                        else old(events)
      ensures old(Valid()) ==> Valid()
    {
      if Valid() {
        AssetWorkflow.InsurerApproveInsuranceReclaimPreservesValid(Store(), members.Store(), who, id, approve, note);
      }
      var noteCheck := CheckReclaimInfo(note);
      r := DecisionPrechecks(members, who, Insurer, id, noteCheck);
      if r.Fail? {
        return;
      }
      if id !in reclaimInQ {
        return Fail(AssetSpec.AssetReClaimIdInvalid);
      }
      var reclaim := reclaimInQ[id];
      if reclaim.status != AssetInsuranceReClaimStatus.CommunityApproved {
        return Fail(AssetSpec.AssetInsuranceReClaimStatusUnexpected);
      }
      var status := if approve then InsurerApproved else InsurerDisApproved;
      reclaimInQ := reclaimInQ[id := reclaim.(insurerNote := note, status := status)];
      events := events + [AssetInsuranceReclaimInsurerApproved(who, id)];
    }

    /** `request_healthcheck`. */
    method RequestHealthcheck(
      members: MemberPallet.Pallet, who: AccountId, id: AssetId, info: Option<seq<AssetHealthCheckRecInfo>>)
      returns (r: Outcome<AssetSpec.Error>)
      requires AssetSpec.OwnerListsNonEmpty(Store())
      modifies this
      ensures AssetSpec.Step(r, Store()) == AssetSpec.RequestHealthcheck(old(Store()), members.Store(), who, id, info)
      ensures events == if r.Pass? then old(events) + [AssetHealthCheckRequest(who, id)] else old(events)
      ensures old(Valid()) ==> Valid()
    {
      if Valid() {
        AssetWorkflow.RequestHealthcheckPreservesValid(Store(), members.Store(), who, id, info);
      }
      r := RequireRole(members, who, AssetOwner);
      if r.Fail? {
        return;
      }
      r := AssetSpec.ValidateAssetOwnership(Store(), id, who);
      if r.Fail? {
        return;
      }
      r := AssetSpec.ValidateAssetStatus(Store(), id, InFarm);
      if r.Fail? {
        return;
      }
      r := AssetSpec.ValidateAssetInsuranceStatus(Store(), id, AssetInsuranceStatus.Active);
      if r.Fail? {
        return;
      }
      r := CheckHealthCheckInfo(info);
      if r.Fail? {
        return;
      }
      r := AssetSpec.ValidateIsNewHealthcheckRequest(Store(), id);
      if r.Fail? {
        return;
      }
      var record := DefaultAssetHealthCheckRecBuilder.UpdateAssetId(id).UpdateOwnerNote(info).Build();
      healthCheckInQ := healthCheckInQ[id := record];
      events := events + [AssetHealthCheckRequest(who, id)];
    }

    /** `healthofficer_remark`. */
    method HealthofficerRemark(
      members: MemberPallet.Pallet, who: AccountId, id: AssetId, treatmentDone: bool,
      note: Option<seq<AssetHealthCheckRecInfo>>)
      returns (r: Outcome<AssetSpec.Error>)
      modifies this
      ensures AssetSpec.Step(r, Store())
              == AssetSpec.HealthofficerRemark(old(Store()), members.Store(), who, id, treatmentDone, note)
      ensures events == if r.Pass? then old(events) + [AssetHealthCheckHealthOfficerUpdate(who, id)]
                        else old(events)
      ensures old(Valid()) ==> Valid()
    {
      if Valid() {
        AssetWorkflow.HealthofficerRemarkPreservesValid(Store(), members.Store(), who, id, treatmentDone, note);
      }
      var noteCheck := CheckHealthCheckInfo(note);
      r := DecisionPrechecks(members, who, HealthOfficer, id, noteCheck);
      if r.Fail? {
        return;
      }
      if id !in healthCheckInQ {
        return Fail(AssetSpec.AssetHealthCheckRecIdInvalid);
      }
      var record := healthCheckInQ[id];
      if record.status != NewReq && record.status != TreatmentInProgress {
        return Fail(AssetSpec.AssetHealthCheckRecStatusUnexpected);
      }
      var status := if treatmentDone then TreatmentDone else TreatmentInProgress;
      var notes := AssetSpec.AppendIfPresent(record.healthOfficerNote, note);
      healthCheckInQ := healthCheckInQ[id := record.(healthOfficerNote := notes, status := status)];
      events := events + [AssetHealthCheckHealthOfficerUpdate(who, id)];
    }

    /** `community_remark`. */
    method CommunityRemark(
      members: MemberPallet.Pallet, who: AccountId, id: AssetId, approved: bool,
      note: Option<seq<AssetHealthCheckRecInfo>>)
      returns (r: Outcome<AssetSpec.Error>)
      modifies this
      ensures AssetSpec.Step(r, Store())
              == AssetSpec.CommunityRemark(old(Store()), members.Store(), who, id, approved, note)
      ensures events == if r.Pass? then old(events) + [AssetHealthCheckCommunityUpdate(who, id)] else old(events)
      ensures old(Valid()) ==> Valid()
    {
      if Valid() {
        AssetWorkflow.CommunityRemarkPreservesValid(Store(), members.Store(), who, id, approved, note);
      }
      var noteCheck := CheckHealthCheckInfo(note);
      r := DecisionPrechecks(members, who, CommunityLeader, id, noteCheck);
      if r.Fail? {
        return;
      }
      if id !in healthCheckInQ {
        return Fail(AssetSpec.AssetHealthCheckRecIdInvalid);
      }
      var record := healthCheckInQ[id];
      if record.status != TreatmentDone {
        return Fail(AssetSpec.AssetHealthCheckRecStatusUnexpected);
      }
      var status := if approved then AssetHealthCheckRecStatus.CommunityApproved else record.status;
      var notes := AssetSpec.AppendIfPresent(record.communityNote, note);
      healthCheckInQ := healthCheckInQ[id := record.(communityNote := notes, status := status)];
      events := events + [AssetHealthCheckCommunityUpdate(who, id)];
    }
  }
}

/** What the asset registry guarantees across calls: every dispatchable keeps
    the storage invariant, and the registration, insurance, reclaim and
    health-check records only ever move along their workflows. */
module AssetWorkflow {
  import opened Base
  import opened BoundedInfo
  import opened AssetTypes
  import opened MemberTypes
  import MemberSpec
  import opened AssetSpec

  lemma ValidOwnerListsNonEmpty(s: AssetStore)
    requires s.Valid()
    ensures OwnerListsNonEmpty(s)
  {
  }

  lemma RegisterAssetPreservesValid(
    s: AssetStore, m: MemberSpec.MemberStore, who: AccountId, now: Moment,
    id: AssetId, info: Option<seq<AssetProfileInfo>>)
    requires s.Valid()
    ensures AssetSpec.RegisterAsset(s, m, who, now, id, info).post.Valid()
  {
  }

  lemma ProcessNewAssetRegisterRequestPreservesValid(
    s: AssetStore, m: MemberSpec.MemberStore, who: AccountId, id: AssetId, approve: bool)
    requires s.Valid()
    ensures AssetSpec.ProcessNewAssetRegisterRequest(s, m, who, id, approve).post.Valid()
  {
  }

  lemma RequestInsurancePreservesValid(s: AssetStore, m: MemberSpec.MemberStore, who: AccountId, id: AssetId)
    requires s.Valid()
    ensures AssetSpec.RequestInsurance(s, m, who, id).post.Valid()
  {
  }

  lemma UpdateInsurancePremiumPreservesValid(
    s: AssetStore, m: MemberSpec.MemberStore, who: AccountId, id: AssetId, premium: Balance)
    requires s.Valid()
    ensures AssetSpec.UpdateInsurancePremium(s, m, who, id, premium).post.Valid()
  {
  }

  lemma DepositInsurancePremiumPreservesValid(
    s: AssetStore, m: MemberSpec.MemberStore, who: AccountId, id: AssetId, amount: Balance)
    requires s.Valid()
    ensures AssetSpec.DepositInsurancePremium(s, m, who, id, amount).post.Valid()
  {
  }

  lemma ApproveInsurancePreservesValid(
    s: AssetStore, m: MemberSpec.MemberStore, who: AccountId, now: Moment, id: AssetId)
    requires s.Valid()
    ensures AssetSpec.ApproveInsurance(s, m, who, now, id).post.Valid()
  {
  }

  lemma RequestInsuranceReclaimPreservesValid(
    s: AssetStore, m: MemberSpec.MemberStore, who: AccountId, id: AssetId,
    info: Option<seq<AssetInsuranceReClaimInfo>>)
    requires s.Valid()
    ensures AssetSpec.RequestInsuranceReclaim(s, m, who, id, info).post.Valid()
  {
  }

  lemma CommunityApproveInsuranceReclaimPreservesValid(
    s: AssetStore, m: MemberSpec.MemberStore, who: AccountId, id: AssetId, approve: bool,
    note: Option<seq<AssetInsuranceReClaimInfo>>)
    requires s.Valid()
    ensures AssetSpec.CommunityApproveInsuranceReclaim(s, m, who, id, approve, note).post.Valid()
  {
  }

  lemma InsurerApproveInsuranceReclaimPreservesValid(
    s: AssetStore, m: MemberSpec.MemberStore, who: AccountId, id: AssetId, approve: bool,
    note: Option<seq<AssetInsuranceReClaimInfo>>)
    requires s.Valid()
    ensures AssetSpec.InsurerApproveInsuranceReclaim(s, m, who, id, approve, note).post.Valid()
  {
  }

  lemma RequestHealthcheckPreservesValid(
    s: AssetStore, m: MemberSpec.MemberStore, who: AccountId, id: AssetId,
    info: Option<seq<AssetHealthCheckRecInfo>>)
    requires s.Valid()
    ensures AssetSpec.RequestHealthcheck(s, m, who, id, info).post.Valid()
  {
  }

  lemma HealthofficerRemarkPreservesValid(
    s: AssetStore, m: MemberSpec.MemberStore, who: AccountId, id: AssetId, treatmentDone: bool,
    note: Option<seq<AssetHealthCheckRecInfo>>)
    requires s.Valid()
    ensures AssetSpec.HealthofficerRemark(s, m, who, id, treatmentDone, note).post.Valid()
  {
  }

  lemma CommunityRemarkPreservesValid(
    s: AssetStore, m: MemberSpec.MemberStore, who: AccountId, id: AssetId, approved: bool,
    note: Option<seq<AssetHealthCheckRecInfo>>)
    requires s.Valid()
    ensures AssetSpec.CommunityRemark(s, m, who, id, approved, note).post.Valid()
  {
  }

  /** Any call keeps the storage invariant. */
  lemma DispatchPreservesValid(s: AssetStore, m: MemberSpec.MemberStore, who: AccountId, now: Moment, c: Call)
    requires s.Valid()
    ensures OwnerListsNonEmpty(s) && Dispatch(s, m, who, now, c).post.Valid()
  {
    match c
    case RegisterAssetCall(id, info) => RegisterAssetPreservesValid(s, m, who, now, id, info);
    case ProcessNewAssetRegisterRequestCall(id, approve) =>
      ProcessNewAssetRegisterRequestPreservesValid(s, m, who, id, approve);
    case RequestInsuranceCall(id) => RequestInsurancePreservesValid(s, m, who, id);
    case UpdateInsurancePremiumCall(id, premium) => UpdateInsurancePremiumPreservesValid(s, m, who, id, premium);
    case DepositInsurancePremiumCall(id, amount) => DepositInsurancePremiumPreservesValid(s, m, who, id, amount);
    case ApproveInsuranceCall(id) => ApproveInsurancePreservesValid(s, m, who, now, id);
    case RequestInsuranceReclaimCall(id, info) => RequestInsuranceReclaimPreservesValid(s, m, who, id, info);
    case CommunityApproveInsuranceReclaimCall(id, approve, info) =>
      CommunityApproveInsuranceReclaimPreservesValid(s, m, who, id, approve, info);
    case InsurerApproveInsuranceReclaimCall(id, approve, info) =>
      InsurerApproveInsuranceReclaimPreservesValid(s, m, who, id, approve, info);
    case RequestHealthcheckCall(id, info) => RequestHealthcheckPreservesValid(s, m, who, id, info);
    case HealthofficerRemarkCall(id, done, info) => HealthofficerRemarkPreservesValid(s, m, who, id, done, info);
    case CommunityRemarkCall(id, approved, info) => CommunityRemarkPreservesValid(s, m, who, id, approved, info);
  }

  // ---------------------------------------------------------------------
  // Where each record of an asset id stands, and the moves allowed

  datatype Registration = Unregistered | Staged | Registered

  function RegistrationOf(s: AssetStore, id: AssetId): Registration {
    if id in s.assetProfiles then Registered
    else if id in s.registrationInQ then Staged
    else Unregistered
  }

  /** Registration goes unregistered, staged, then registered or back to
      unregistered when the community leader rejects it; a registered asset
      is never removed. */
  predicate RegistrationMove(before: Registration, after: Registration) {
    || before == after
    || (before == Unregistered && after == Staged)
    || (before == Staged && after in {Registered, Unregistered})
  }

  function InsuranceOf(s: AssetStore, id: AssetId): Option<AssetInsuranceStatus> {
    if id in s.assetProfiles && s.assetProfiles[id].assetInsurance.Some? then
      Some(s.assetProfiles[id].assetInsurance.value.status)
    else None
  }

  /** Insurance goes application, quoted, paid, active, one step at a time. */
  predicate InsuranceMove(before: Option<AssetInsuranceStatus>, after: Option<AssetInsuranceStatus>) {
    || before == after
    || (before.None? && after == Some(NewApplication))
    || (before == Some(NewApplication) && after == Some(PremiumQuoted))
    || (before == Some(PremiumQuoted) && after == Some(PremiumPaid))
    || (before == Some(PremiumPaid) && after == Some(AssetInsuranceStatus.Active))
  }

  function ReclaimOf(s: AssetStore, id: AssetId): Option<AssetInsuranceReClaimStatus> {
    if id in s.reclaimInQ then Some(s.reclaimInQ[id].status) else None
  }

  /** A reclaim is decided by the community, then, if approved there, by the
      insurer. */
  predicate ReclaimMove(before: Option<AssetInsuranceReClaimStatus>, after: Option<AssetInsuranceReClaimStatus>) {
    || before == after
    || (before.None? && after == Some(NewReclaim))
    || (before == Some(NewReclaim) && after.Some?
        && after.value in {AssetInsuranceReClaimStatus.CommunityApproved, CommunityDisApproved})
    || (before == Some(AssetInsuranceReClaimStatus.CommunityApproved) && after.Some?
        && after.value in {InsurerApproved, InsurerDisApproved})
  }

  function HealthCheckOf(s: AssetStore, id: AssetId): Option<AssetHealthCheckRecStatus> {
    if id in s.healthCheckInQ then Some(s.healthCheckInQ[id].status) else None
  }

  /** A health check is treated by the officer, possibly over several
      remarks, and then approved by the community. */
  predicate HealthCheckMove(before: Option<AssetHealthCheckRecStatus>, after: Option<AssetHealthCheckRecStatus>) {
    || before == after
    || (before.None? && after == Some(NewReq))
    || (before.Some? && before.value in {NewReq, TreatmentInProgress} && after.Some?
        && after.value in {TreatmentInProgress, TreatmentDone})
    || (before == Some(TreatmentDone) && after == Some(AssetHealthCheckRecStatus.CommunityApproved))
  }

  /** Between two storages, every record of `id` moved along its workflow. */
  predicate FollowsWorkflows(s: AssetStore, t: AssetStore, id: AssetId) {
    && RegistrationMove(RegistrationOf(s, id), RegistrationOf(t, id))
    && InsuranceMove(InsuranceOf(s, id), InsuranceOf(t, id))
    && ReclaimMove(ReclaimOf(s, id), ReclaimOf(t, id))
    && HealthCheckMove(HealthCheckOf(s, id), HealthCheckOf(t, id))
  }

  lemma RegisterAssetFollowsWorkflows(
    s: AssetStore, m: MemberSpec.MemberStore, who: AccountId, now: Moment,
    id: AssetId, info: Option<seq<AssetProfileInfo>>, x: AssetId)
    requires s.Valid()
    ensures FollowsWorkflows(s, AssetSpec.RegisterAsset(s, m, who, now, id, info).post, x)
  {
  }

  lemma ProcessNewAssetRegisterRequestFollowsWorkflows(
    s: AssetStore, m: MemberSpec.MemberStore, who: AccountId, id: AssetId, approve: bool, x: AssetId)
    requires s.Valid()
    ensures FollowsWorkflows(s, AssetSpec.ProcessNewAssetRegisterRequest(s, m, who, id, approve).post, x)
  {
  }

  lemma RequestInsuranceFollowsWorkflows(
    s: AssetStore, m: MemberSpec.MemberStore, who: AccountId, id: AssetId, x: AssetId)
    requires s.Valid()
    ensures OwnerListsNonEmpty(s)
    ensures FollowsWorkflows(s, AssetSpec.RequestInsurance(s, m, who, id).post, x)
  {
  }

  lemma UpdateInsurancePremiumFollowsWorkflows(
    s: AssetStore, m: MemberSpec.MemberStore, who: AccountId, id: AssetId, premium: Balance, x: AssetId)
    requires s.Valid()
    ensures FollowsWorkflows(s, AssetSpec.UpdateInsurancePremium(s, m, who, id, premium).post, x)
  {
  }

  lemma DepositInsurancePremiumFollowsWorkflows(
    s: AssetStore, m: MemberSpec.MemberStore, who: AccountId, id: AssetId, amount: Balance, x: AssetId)
    requires s.Valid()
    ensures OwnerListsNonEmpty(s)
    ensures FollowsWorkflows(s, AssetSpec.DepositInsurancePremium(s, m, who, id, amount).post, x)
  {
  }

  lemma ApproveInsuranceFollowsWorkflows(
    s: AssetStore, m: MemberSpec.MemberStore, who: AccountId, now: Moment, id: AssetId, x: AssetId)
    requires s.Valid()
    ensures FollowsWorkflows(s, AssetSpec.ApproveInsurance(s, m, who, now, id).post, x)
  {
  }

  lemma RequestInsuranceReclaimFollowsWorkflows(
    s: AssetStore, m: MemberSpec.MemberStore, who: AccountId, id: AssetId,
    info: Option<seq<AssetInsuranceReClaimInfo>>, x: AssetId)
    requires s.Valid()
    ensures OwnerListsNonEmpty(s)
    ensures FollowsWorkflows(s, AssetSpec.RequestInsuranceReclaim(s, m, who, id, info).post, x)
  {
  }

  lemma CommunityApproveInsuranceReclaimFollowsWorkflows(
    s: AssetStore, m: MemberSpec.MemberStore, who: AccountId, id: AssetId, approve: bool,
    note: Option<seq<AssetInsuranceReClaimInfo>>, x: AssetId)
    requires s.Valid()
    ensures FollowsWorkflows(s, AssetSpec.CommunityApproveInsuranceReclaim(s, m, who, id, approve, note).post, x)
  {
  }

  lemma InsurerApproveInsuranceReclaimFollowsWorkflows(
    s: AssetStore, m: MemberSpec.MemberStore, who: AccountId, id: AssetId, approve: bool,
    note: Option<seq<AssetInsuranceReClaimInfo>>, x: AssetId)
    requires s.Valid()
    ensures FollowsWorkflows(s, AssetSpec.InsurerApproveInsuranceReclaim(s, m, who, id, approve, note).post, x)
  {
  }

  lemma RequestHealthcheckFollowsWorkflows(
    s: AssetStore, m: MemberSpec.MemberStore, who: AccountId, id: AssetId,
    info: Option<seq<AssetHealthCheckRecInfo>>, x: AssetId)
    requires s.Valid()
    ensures OwnerListsNonEmpty(s)
    ensures FollowsWorkflows(s, AssetSpec.RequestHealthcheck(s, m, who, id, info).post, x)
  {
  }

  lemma HealthofficerRemarkFollowsWorkflows(
    s: AssetStore, m: MemberSpec.MemberStore, who: AccountId, id: AssetId, treatmentDone: bool,
    note: Option<seq<AssetHealthCheckRecInfo>>, x: AssetId)
    requires s.Valid()
    ensures FollowsWorkflows(s, AssetSpec.HealthofficerRemark(s, m, who, id, treatmentDone, note).post, x)
  {
  }

  lemma CommunityRemarkFollowsWorkflows(
    s: AssetStore, m: MemberSpec.MemberStore, who: AccountId, id: AssetId, approved: bool,
    note: Option<seq<AssetHealthCheckRecInfo>>, x: AssetId)
    requires s.Valid()
    ensures FollowsWorkflows(s, AssetSpec.CommunityRemark(s, m, who, id, approved, note).post, x)
  {
  }

  /** Every call moves every asset's records along the workflows only. */
  lemma DispatchFollowsWorkflows(
    s: AssetStore, m: MemberSpec.MemberStore, who: AccountId, now: Moment, c: Call, x: AssetId)
    requires s.Valid()
    ensures OwnerListsNonEmpty(s)
    ensures FollowsWorkflows(s, Dispatch(s, m, who, now, c).post, x)
  {
    match c
    case RegisterAssetCall(id, info) => RegisterAssetFollowsWorkflows(s, m, who, now, id, info, x);
    case ProcessNewAssetRegisterRequestCall(id, approve) =>
      ProcessNewAssetRegisterRequestFollowsWorkflows(s, m, who, id, approve, x);
    case RequestInsuranceCall(id) => RequestInsuranceFollowsWorkflows(s, m, who, id, x);
    case UpdateInsurancePremiumCall(id, premium) => UpdateInsurancePremiumFollowsWorkflows(s, m, who, id, premium, x);
    case DepositInsurancePremiumCall(id, amount) => DepositInsurancePremiumFollowsWorkflows(s, m, who, id, amount, x);
    case ApproveInsuranceCall(id) => ApproveInsuranceFollowsWorkflows(s, m, who, now, id, x);
    case RequestInsuranceReclaimCall(id, info) => RequestInsuranceReclaimFollowsWorkflows(s, m, who, id, info, x);
    case CommunityApproveInsuranceReclaimCall(id, approve, info) =>
      CommunityApproveInsuranceReclaimFollowsWorkflows(s, m, who, id, approve, info, x);
    case InsurerApproveInsuranceReclaimCall(id, approve, info) =>
      InsurerApproveInsuranceReclaimFollowsWorkflows(s, m, who, id, approve, info, x);
    case RequestHealthcheckCall(id, info) => RequestHealthcheckFollowsWorkflows(s, m, who, id, info, x);
    case HealthofficerRemarkCall(id, done, info) => HealthofficerRemarkFollowsWorkflows(s, m, who, id, done, info, x);
    case CommunityRemarkCall(id, approved, info) => CommunityRemarkFollowsWorkflows(s, m, who, id, approved, info, x);
  }

  // ---------------------------------------------------------------------
  // Properties of single calls and of call sequences

  /** A staged registration can be decided once: the second decision finds
      no staging entry. */
  lemma ProcessNewAssetRegisterRequestTwiceFails(
    s: AssetStore, m: MemberSpec.MemberStore, who: AccountId, id: AssetId, approve: bool, again: bool)
    requires AssetSpec.ProcessNewAssetRegisterRequest(s, m, who, id, approve).outcome == Pass
    ensures var t := AssetSpec.ProcessNewAssetRegisterRequest(s, m, who, id, approve).post;
            AssetSpec.ProcessNewAssetRegisterRequest(t, m, who, id, again).outcome == Fail(AssetIdInvalid)
  {
  }

  /** An asset id can be registered once. */
  lemma RegisterAssetTwiceFails(
    s: AssetStore, m: MemberSpec.MemberStore, who: AccountId, now: Moment, later: Moment,
    id: AssetId, info: Option<seq<AssetProfileInfo>>)
    requires AssetSpec.RegisterAsset(s, m, who, now, id, info).outcome == Pass
    ensures var t := AssetSpec.RegisterAsset(s, m, who, now, id, info).post;
            AssetSpec.RegisterAsset(t, m, who, later, id, info).outcome == Fail(AssetIdAlreadyExists)
  {
  }

  /** The deposited amount never influences the call: the premium is marked
      paid whatever is sent. */
  lemma DepositInsurancePremiumIgnoresAmount(
    s: AssetStore, m: MemberSpec.MemberStore, who: AccountId, id: AssetId, a: Balance, b: Balance)
    requires OwnerListsNonEmpty(s)
    ensures AssetSpec.DepositInsurancePremium(s, m, who, id, a) == AssetSpec.DepositInsurancePremium(s, m, who, id, b)
  {
  }

  /** Registration end to end: an asset owner stages a fresh id, a community
      leader approves it, and the asset is in the farm, owned and kept by the
      registering account, without insurance. */
  lemma RegistrationScenario(
    s: AssetStore, m: MemberSpec.MemberStore, owner: AccountId, leader: AccountId, now: Moment,
    id: AssetId, info: Option<seq<AssetProfileInfo>>)
    requires s.Valid()
    requires MemberSpec.HoldsRole(m, owner, AssetOwner) && MemberSpec.HoldsRole(m, leader, CommunityLeader)
    requires 0 < |id| <= AssetIdMaxLength && InfoOk(info, AssetInfoLimits)
    requires RegistrationOf(s, id) == Unregistered
    ensures var r1 := AssetSpec.RegisterAsset(s, m, owner, now, id, info);
            var r2 := AssetSpec.ProcessNewAssetRegisterRequest(r1.post, m, leader, id, true);
            && r1.outcome == Pass && r2.outcome == Pass
            && r2.post.Valid()
            && RegistrationOf(r2.post, id) == Registered
            && r2.post.assetProfiles[id]
               == AssetProfile(id, info, now, InFarm, Some([owner]), Some([owner]), None)
  {
    var r1 := AssetSpec.RegisterAsset(s, m, owner, now, id, info);
    RegisterAssetPreservesValid(s, m, owner, now, id, info);
    ProcessNewAssetRegisterRequestPreservesValid(r1.post, m, leader, id, true);
  }

  /** Insurance end to end: the designated owner of an uninsured asset in the
      farm applies, an insurer quotes, the owner pays, an insurer approves,
      and the insurance is active with the quoted premium and start and
      expiry both at the approval time. */
  lemma InsuranceScenario(
    s: AssetStore, m: MemberSpec.MemberStore, owner: AccountId, insurer: AccountId,
    id: AssetId, premium: Balance, paid: Balance, now: Moment)
    requires s.Valid()
    requires MemberSpec.HoldsRole(m, owner, AssetOwner) && MemberSpec.HoldsRole(m, insurer, Insurer)
    requires IsDesignatedOwner(s, id, owner) && s.assetProfiles[id].assetInsurance.None?
    ensures OwnerListsNonEmpty(s)
    ensures var r1 := AssetSpec.RequestInsurance(s, m, owner, id);
            var r2 := AssetSpec.UpdateInsurancePremium(r1.post, m, insurer, id, premium);
            var r3 := AssetSpec.DepositInsurancePremium(r2.post, m, owner, id, paid);
            var r4 := AssetSpec.ApproveInsurance(r3.post, m, insurer, now, id);
            && r1.outcome == Pass && r2.outcome == Pass && r3.outcome == Pass && r4.outcome == Pass
            && r4.post.assetProfiles[id].assetInsurance
               == Some(AssetInsurance(id, AssetInsuranceStatus.Active, now, now, premium, 0, 0))
            && r4.post.assetProfiles[id].(assetInsurance := None) == s.assetProfiles[id]
  {
    var r1 := AssetSpec.RequestInsurance(s, m, owner, id);
    RequestInsurancePreservesValid(s, m, owner, id);
    var r2 := AssetSpec.UpdateInsurancePremium(r1.post, m, insurer, id, premium);
    UpdateInsurancePremiumPreservesValid(r1.post, m, insurer, id, premium);
    var r3 := AssetSpec.DepositInsurancePremium(r2.post, m, owner, id, paid);
    assert r3.outcome == Pass;
  }

  /** Reclaim end to end on an asset with active insurance: the designated
      owner files a reclaim, the community approves it, the insurer approves
      it, and each note is the one given at its step. */
  lemma ReclaimScenario(
    s: AssetStore, m: MemberSpec.MemberStore, owner: AccountId, leader: AccountId, insurer: AccountId,
    id: AssetId, ownerNote: Option<seq<AssetInsuranceReClaimInfo>>,
    communityNote: Option<seq<AssetInsuranceReClaimInfo>>, insurerNote: Option<seq<AssetInsuranceReClaimInfo>>)
    requires s.Valid()
    requires MemberSpec.HoldsRole(m, owner, AssetOwner) && MemberSpec.HoldsRole(m, leader, CommunityLeader)
    requires MemberSpec.HoldsRole(m, insurer, Insurer)
    requires IsDesignatedOwner(s, id, owner) && InsuranceStatusIs(s.assetProfiles[id], AssetInsuranceStatus.Active)
    requires id !in s.reclaimInQ
    requires InfoOk(ownerNote, ReclaimInfoLimits) && InfoOk(communityNote, ReclaimInfoLimits)
    requires InfoOk(insurerNote, ReclaimInfoLimits)
    ensures OwnerListsNonEmpty(s)
    ensures var r1 := AssetSpec.RequestInsuranceReclaim(s, m, owner, id, ownerNote);
            var r2 := AssetSpec.CommunityApproveInsuranceReclaim(r1.post, m, leader, id, true, communityNote);
            var r3 := AssetSpec.InsurerApproveInsuranceReclaim(r2.post, m, insurer, id, true, insurerNote);
            && r1.outcome == Pass && r2.outcome == Pass && r3.outcome == Pass
            && r3.post.reclaimInQ[id]
               == AssetInsuranceReClaim(id, 0, 0, InsurerApproved, ownerNote, communityNote, insurerNote)
            && r3.post.assetProfiles == s.assetProfiles
  {
  }

  /** Health check end to end on an asset with active insurance: the officer
      finishes the treatment and the community approves; the officer's and
      the community's notes are dropped, because a new record has none to
      append to. */
  lemma HealthCheckScenario(
    s: AssetStore, m: MemberSpec.MemberStore, owner: AccountId, officer: AccountId, leader: AccountId,
    id: AssetId, ownerNote: Option<seq<AssetHealthCheckRecInfo>>,
    officerNote: Option<seq<AssetHealthCheckRecInfo>>, communityNote: Option<seq<AssetHealthCheckRecInfo>>)
    requires s.Valid()
    requires MemberSpec.HoldsRole(m, owner, AssetOwner) && MemberSpec.HoldsRole(m, officer, HealthOfficer)
    requires MemberSpec.HoldsRole(m, leader, CommunityLeader)
    requires IsDesignatedOwner(s, id, owner) && InsuranceStatusIs(s.assetProfiles[id], AssetInsuranceStatus.Active)
    requires id !in s.healthCheckInQ
    requires InfoOk(ownerNote, HealthCheckInfoLimits) && InfoOk(officerNote, HealthCheckInfoLimits)
    requires InfoOk(communityNote, HealthCheckInfoLimits)
    ensures OwnerListsNonEmpty(s)
    ensures var r1 := AssetSpec.RequestHealthcheck(s, m, owner, id, ownerNote);
            var r2 := AssetSpec.HealthofficerRemark(r1.post, m, officer, id, true, officerNote);
            var r3 := AssetSpec.CommunityRemark(r2.post, m, leader, id, true, communityNote);
            && r1.outcome == Pass && r2.outcome == Pass && r3.outcome == Pass
            && r3.post.healthCheckInQ[id]
               == AssetHealthCheckRec(id, 0, 0, AssetHealthCheckRecStatus.CommunityApproved, ownerNote, None, None)
  {
  }

  /** A community disapproval of a finished treatment is recorded as a
      successful call that leaves the record as it was. */
  lemma CommunityRemarkDisapprovalKeepsRecord(
    s: AssetStore, m: MemberSpec.MemberStore, who: AccountId, id: AssetId,
    note: Option<seq<AssetHealthCheckRecInfo>>)
    requires s.Valid()
    requires AssetSpec.CommunityRemark(s, m, who, id, false, note).outcome == Pass
    ensures AssetSpec.CommunityRemark(s, m, who, id, false, note).post == s
    ensures s.healthCheckInQ[id].status == TreatmentDone
  {
  }

  /** Each reclaim decision replaces the note of its decider; notes given
      earlier are not kept. */
  lemma ReclaimDecisionReplacesNote(
    s: AssetStore, m: MemberSpec.MemberStore, who: AccountId, id: AssetId, approve: bool,
    note: Option<seq<AssetInsuranceReClaimInfo>>)
    ensures var r := AssetSpec.CommunityApproveInsuranceReclaim(s, m, who, id, approve, note);
            r.outcome == Pass ==>
              r.post.reclaimInQ[id] == s.reclaimInQ[id].(
                communityNote := note,
                status := if approve then AssetInsuranceReClaimStatus.CommunityApproved else CommunityDisApproved)
    ensures var r := AssetSpec.InsurerApproveInsuranceReclaim(s, m, who, id, approve, note);
            r.outcome == Pass ==>
              r.post.reclaimInQ[id] == s.reclaimInQ[id].(
                insurerNote := note, status := if approve then InsurerApproved else InsurerDisApproved)
  {
  }

  /** `register_asset` checks the role, then the id, then the info, then
      freshness, and reports the first failure; on success it stages a new
      registration owned and kept by the caller alone, joined now, without
      insurance. */
  lemma RegisterAssetCheckOrder(
    s: AssetStore, m: MemberSpec.MemberStore, who: AccountId, now: Moment,
    id: AssetId, info: Option<seq<AssetProfileInfo>>)
    ensures var r := AssetSpec.RegisterAsset(s, m, who, now, id, info);
            && (!MemberSpec.HoldsRole(m, who, AssetOwner) ==> r.outcome == RequireRole(m, who, AssetOwner))
            && (MemberSpec.HoldsRole(m, who, AssetOwner) ==>
                  && (|id| == 0 ==> r.outcome == Fail(AssetIdEmpty))
                  && (|id| > AssetIdMaxLength ==> r.outcome == Fail(AssetIdTooLong))
                  && (0 < |id| <= AssetIdMaxLength && !InfoOk(info, AssetInfoLimits) ==>
                        r.outcome == ValidateAssetProfileInfo(info))
                  && (0 < |id| <= AssetIdMaxLength && InfoOk(info, AssetInfoLimits)
                      && (id in s.registrationInQ || id in s.assetProfiles) ==>
                        r.outcome == Fail(AssetIdAlreadyExists)))
            && (r.outcome == Pass ==>
                  r.post.registrationInQ
                  == s.registrationInQ[id := AssetProfile(id, info, now, NewRegi, Some([who]), Some([who]), None)])
  {
  }

  /** An insurance request attaches a fresh application to the one asset,
      and leaves every other profile as it was. */
  lemma RequestInsuranceEffect(s: AssetStore, m: MemberSpec.MemberStore, who: AccountId, id: AssetId)
    requires OwnerListsNonEmpty(s)
    requires AssetSpec.RequestInsurance(s, m, who, id).outcome == Pass
    ensures var t := AssetSpec.RequestInsurance(s, m, who, id).post;
            && t.assetProfiles
               == s.assetProfiles[id := s.assetProfiles[id].(assetInsurance :=
                    Some(AssetInsurance(id, NewApplication, 0, 0, 0, 0, 0)))]
            && (forall other :: other in s.assetProfiles && other != id ==>
                  t.assetProfiles[other] == s.assetProfiles[other])
  {
  }

  /** A reclaim request stages exactly one new reclaim, carrying the owner's
      notes and no decision, and leaves every other staged reclaim as it
      was. */
  lemma RequestInsuranceReclaimEffect(
    s: AssetStore, m: MemberSpec.MemberStore, who: AccountId, id: AssetId,
    info: Option<seq<AssetInsuranceReClaimInfo>>)
    requires OwnerListsNonEmpty(s)
    requires AssetSpec.RequestInsuranceReclaim(s, m, who, id, info).outcome == Pass
    ensures var t := AssetSpec.RequestInsuranceReclaim(s, m, who, id, info).post;
            && id !in s.reclaimInQ
            && t.reclaimInQ == s.reclaimInQ[id := AssetInsuranceReClaim(id, 0, 0, NewReclaim, info, None, None)]
            && (forall other :: other in s.reclaimInQ ==> other in t.reclaimInQ && t.reclaimInQ[other] == s.reclaimInQ[other])
  {
  }

  /** A health-check request stages exactly one new record, carrying the
      owner's notes and no remarks, and leaves every other staged record as
      it was. */
  lemma RequestHealthcheckEffect(
    s: AssetStore, m: MemberSpec.MemberStore, who: AccountId, id: AssetId,
    info: Option<seq<AssetHealthCheckRecInfo>>)
    requires OwnerListsNonEmpty(s)
    requires AssetSpec.RequestHealthcheck(s, m, who, id, info).outcome == Pass
    ensures var t := AssetSpec.RequestHealthcheck(s, m, who, id, info).post;
            && id !in s.healthCheckInQ
            && t.healthCheckInQ == s.healthCheckInQ[id := AssetHealthCheckRec(id, 0, 0, NewReq, info, None, None)]
            && (forall other :: other in s.healthCheckInQ ==>
                  other in t.healthCheckInQ && t.healthCheckInQ[other] == s.healthCheckInQ[other])
  {
  }

  /** Approving moves the staged profile, now `InFarm`, into the canonical
      store; rejecting only drops it. */
  lemma ProcessNewAssetRegisterRequestEffect(
    s: AssetStore, m: MemberSpec.MemberStore, who: AccountId, id: AssetId, approve: bool)
    requires AssetSpec.ProcessNewAssetRegisterRequest(s, m, who, id, approve).outcome == Pass
    ensures var t := AssetSpec.ProcessNewAssetRegisterRequest(s, m, who, id, approve).post;
            && t.registrationInQ == s.registrationInQ - {id}
            && t.assetProfiles
               == if approve then s.assetProfiles[id := s.registrationInQ[id].(assetStatus := InFarm)]
                  else s.assetProfiles
  {
  }

  /** The three later insurance steps refuse an asset without insurance, an
      insurance not at the step's predecessor status, and an asset outside
      the farm, each with its own error. */
  lemma InsuranceStepErrors(
    s: AssetStore, m: MemberSpec.MemberStore, insurer: AccountId, owner: AccountId, now: Moment,
    id: AssetId, premium: Balance, paid: Balance)
    requires OwnerListsNonEmpty(s)
    requires MemberSpec.HoldsRole(m, insurer, Insurer) && MemberSpec.HoldsRole(m, owner, AssetOwner)
    requires IsDesignatedOwner(s, id, owner)
    ensures var p := s.assetProfiles[id];
            var quote := AssetSpec.UpdateInsurancePremium(s, m, insurer, id, premium).outcome;
            var deposit := AssetSpec.DepositInsurancePremium(s, m, owner, id, paid).outcome;
            var approval := AssetSpec.ApproveInsurance(s, m, insurer, now, id).outcome;
            && (p.assetInsurance.None? ==>
                  quote == deposit == approval == Fail(AssetInsuranceRequestNone))
            && (p.assetInsurance.Some? ==>
                  && (p.assetInsurance.value.status != NewApplication ==> quote == Fail(AssetInsuranceStatusUnexpected))
                  && (p.assetInsurance.value.status != PremiumQuoted ==> deposit == Fail(AssetInsuranceStatusUnexpected))
                  && (p.assetInsurance.value.status != PremiumPaid ==> approval == Fail(AssetInsuranceStatusUnexpected)))
            && (p.assetInsurance.Some? && p.assetStatus != InFarm ==>
                  && (p.assetInsurance.value.status == NewApplication ==> quote == Fail(AssetStatusUnexpected))
                  && (p.assetInsurance.value.status == PremiumQuoted ==> deposit == Fail(AssetStatusUnexpected))
                  && (p.assetInsurance.value.status == PremiumPaid ==> approval == Fail(AssetStatusUnexpected)))
  {
  }

  /** What each successful insurance step writes: a quote stores the premium,
      a deposit only marks it paid, an approval activates the insurance with
      start and expiry at the current time; nothing else in the profile and
      no other asset changes. */
  lemma InsuranceStepEffects(
    s: AssetStore, m: MemberSpec.MemberStore, who: AccountId, now: Moment,
    id: AssetId, premium: Balance, paid: Balance)
    requires OwnerListsNonEmpty(s)
    ensures var r := AssetSpec.UpdateInsurancePremium(s, m, who, id, premium);
            r.outcome == Pass ==>
              var p := s.assetProfiles[id];
              r.post.assetProfiles == s.assetProfiles[id := p.(assetInsurance :=
                Some(p.assetInsurance.value.(quotedPremium := premium, status := PremiumQuoted)))]
    ensures var r := AssetSpec.DepositInsurancePremium(s, m, who, id, paid);
            r.outcome == Pass ==>
              var p := s.assetProfiles[id];
              r.post.assetProfiles == s.assetProfiles[id := p.(assetInsurance :=
                Some(p.assetInsurance.value.(status := PremiumPaid)))]
    ensures var r := AssetSpec.ApproveInsurance(s, m, who, now, id);
            r.outcome == Pass ==>
              var p := s.assetProfiles[id];
              r.post.assetProfiles == s.assetProfiles[id := p.(assetInsurance :=
                Some(p.assetInsurance.value.(startDate := now, expiryDate := now,
                                             status := AssetInsuranceStatus.Active)))]
  {
  }

  /** In valid storage a health-check remark only changes the status: the
      officer's remark sets `TreatmentDone` exactly when treatment is done and
      `TreatmentInProgress` otherwise; the community's sets
      `CommunityApproved` exactly when approved. The notes given are dropped. */
  lemma HealthCheckRemarkEffects(
    s: AssetStore, m: MemberSpec.MemberStore, who: AccountId, id: AssetId, flag: bool,
    note: Option<seq<AssetHealthCheckRecInfo>>)
    requires s.Valid()
    ensures var r := AssetSpec.HealthofficerRemark(s, m, who, id, flag, note);
            r.outcome == Pass ==>
              r.post.healthCheckInQ
              == s.healthCheckInQ[id := s.healthCheckInQ[id].(status := if flag then TreatmentDone else TreatmentInProgress)]
    ensures var r := AssetSpec.CommunityRemark(s, m, who, id, flag, note);
            r.outcome == Pass ==>
              r.post.healthCheckInQ
              == s.healthCheckInQ[id := s.healthCheckInQ[id].(
                   status := if flag then AssetHealthCheckRecStatus.CommunityApproved else TreatmentDone)]
  {
  }
}

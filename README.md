# Cooperative member and asset registries

This project models the two registries of a cooperative's chain runtime and
proves properties of them:

- The **member registry** (`coop-member-profile`). It admits members, each
  with a membership id, bounded profile info and a deposit. It replaces a
  member's info and assigns roles. It answers "does this account hold this
  role?" for the rest of the runtime.
- The **asset registry** (`coop-asset-profile`). An asset owner registers an
  asset in a staging store. A community leader approves it into the
  canonical store or rejects it. After that, three workflows run on the
  registered asset:
  - insurance: application, premium quote, premium payment, approval;
  - an insurance reclaim, decided by the community and then by the insurer;
  - a health check: remarks from a health officer, then from the community.
  Each step is gated by a member role.

Layout:

- `base.dfy`: bytes, accounts, balances and times, `Option`, `Result` and
  `Outcome`. An `Outcome` is `Pass` or `Fail(error)`, which is the
  source's `DispatchResult`.
- `bounded_info.dfy`: the name/value entries that all four info types share.
  The bounded-list validator is written twice:
  - `CheckInfos`, a recursive function that reports the first failure;
  - `ValidateInfos`, a loop method proved equal to it.
  The module also holds the identifier check.
- `member_types.dfy`, `asset_types.dfy`: the records, enums, bounds and
  builders of the two `types.rs` files.
- `member_spec.dfy`, `asset_spec.dfy`: each registry's storage as a
  datatype, plus the storage invariant `Valid`. Each dispatchable is a pure
  step function that returns its `Outcome` together with the storage after
  it. A failed step leaves storage exactly as it was, which is the
  all-or-nothing behaviour of a dispatchable.
- `asset_workflow.dfy`: what holds across calls:
  - every call keeps `Valid`;
  - every record only moves along its workflow;
  - the end-to-end scenarios.
- `member_pallet.dfy`, `asset_pallet.dfy`: each pallet as a class. Its
  storage maps and its event log are fields. Each dispatchable is a method
  that runs the checks in order and writes only when all pass. Each method
  is proved to leave exactly the storage the step function describes, to
  deposit exactly one event on success, and to keep `Valid`.

Behaviour of the code that the model keeps:

- Reclaim decisions replace the community or insurer note rather than
  appending to it.
- Officer and community health-check notes are appended only to an existing
  list. A new record has none, so they are never stored.
- Ownership means being the **last** account in the owner list.
- A premium deposit marks the premium paid whatever the amount and whatever
  the transfer's result.
- Registering a member compares the free balance with the configured
  minimum, not with the deposit.
- A community disapproval of a finished treatment succeeds and leaves the
  record unchanged.
- `update_member_role` with `Some([])` makes the member `Active` with an
  empty role list.

## Model

| member | source | states |
|---|---|---|
| BoundedInfo.NewInfo | chain/pallets/coop-member-profile/src/types.rs:26-40 | a constructed info entry returns the given name and value from its accessors; the asset profile, reclaim and health-check info types share this one entry type |
| BoundedInfo.CheckEntriesPassIff | chain/pallets/coop-asset-profile/src/lib.rs:801-821 | the entry loop passes exactly when every entry's name and value are within bounds |
| BoundedInfo.CheckEntriesFirstFailure | chain/pallets/coop-asset-profile/src/lib.rs:809-818 | the entry loop reports the first offending entry: an invalid name, or else an invalid value |
| BoundedInfo.CheckEntriesNeverTooMany | chain/pallets/coop-asset-profile/src/lib.rs:809-818 | the entry loop never reports the count error |
| BoundedInfo.CheckInfosCorrect | chain/pallets/coop-asset-profile/src/lib.rs:801-821 | an info list passes exactly when it is absent or within all three bounds; the count error is reported exactly when there are too many entries |
| BoundedInfo.CheckInfosBoundary | chain/pallets/coop-asset-profile/src/lib.rs:805-808 | a list of exactly the maximum count of valid entries passes, and one more entry fails with the count error |
| BoundedInfo.ValidateInfos | chain/pallets/coop-asset-profile/src/lib.rs:801-821 | the validation loop returns the same verdict as the reference check |
| BoundedInfo.CheckId | chain/pallets/coop-asset-profile/src/lib.rs:794-799 | an id passes exactly when it is non-empty and within the maximum; empty and too-long ids get their own errors |
| MemberTypes.MemberProfileBuilder.UpdateMemberAcc | chain/pallets/coop-member-profile/src/types.rs:93-99 | sets the account and changes nothing else |
| MemberTypes.MemberProfileBuilder.UpdateSocietyMembershipId | chain/pallets/coop-member-profile/src/types.rs:101-107 | sets the membership id and changes nothing else |
| MemberTypes.MemberProfileBuilder.UpdateMemberProfileInfo | chain/pallets/coop-member-profile/src/types.rs:109-115 | sets the profile info and changes nothing else |
| MemberTypes.MemberProfileBuilder.UpdateJoinedDate | chain/pallets/coop-member-profile/src/types.rs:117-123 | sets the join date and changes nothing else |
| MemberTypes.MemberProfileBuilder.UpdateDeposit | chain/pallets/coop-member-profile/src/types.rs:125-131 | sets the deposit and changes nothing else |
| MemberTypes.MemberProfileBuilder.Build | chain/pallets/coop-member-profile/src/types.rs:133-144 | a built profile has no status, no role and zero karma, and carries the builder's fields |
| MemberSpec.ValidateMembershipId | chain/pallets/coop-member-profile/src/lib.rs:234-245 | passes exactly for ids of 1 to 36 bytes; the empty id and the too-long id get their own errors |
| MemberSpec.ValidateMemberProfileInfo | chain/pallets/coop-member-profile/src/lib.rs:264-286 | passes exactly when the info is absent or has at most 5 entries with names of at most 10 and values of at most 20 bytes |
| MemberSpec.ValidateNewMember | chain/pallets/coop-member-profile/src/lib.rs:247-262 | passes exactly when neither the membership id nor the account is registered; the id is checked first |
| MemberSpec.ResolveMember | chain/pallets/coop-member-profile/src/lib.rs:309-334 | resolves an account to its membership id exactly when both lookups succeed, with the source's error for each missing lookup |
| MemberSpec.HasRole | chain/pallets/coop-member-profile/src/lib.rs:288-307 | passes exactly when the account's profile lists the role; an unknown account and an unknown profile get their own errors |
| MemberSpec.RegisterMember | chain/pallets/coop-member-profile/src/lib.rs:90-156 | fails without writing unless the origin is privileged, the id and info are valid, the member is new, and both the deposit and the free balance reach the minimum |
| MemberSpec.UpdateMemberProfileInfo | chain/pallets/coop-member-profile/src/lib.rs:159-186 | succeeds exactly for a privileged origin, present info within bounds and a resolvable member; a bad origin, absent info, invalid info, an unknown account and an unknown profile each get their own error, in that order; a failure writes nothing |
| MemberSpec.UpdateMemberRole | chain/pallets/coop-member-profile/src/lib.rs:189-216 | succeeds exactly for a privileged origin and a resolvable member; a bad origin, an unknown account and an unknown profile each get their own error; a failure writes nothing |
| MemberSpec.RegisterMemberEffect | chain/pallets/coop-member-profile/src/lib.rs:131-144 | a registration stores both directions of the mapping and a profile with no status, no role, zero karma, and the given id, info, deposit and date |
| MemberSpec.RegisterMemberCheckOrder | chain/pallets/coop-member-profile/src/lib.rs:96-121 | the origin, membership id, info, new id, new account, deposit and free balance checks run in that order, each failure reporting its own error |
| MemberSpec.RegisteredMemberHasNoRole | chain/pallets/coop-member-profile/src/types.rs:133-144 | a newly registered member holds no role |
| MemberSpec.RegisterMemberPreservesValid | chain/pallets/coop-member-profile/src/lib.rs:90-156 | registration keeps the registry a bijection of well-formed profiles |
| MemberSpec.UpdateMemberProfileInfoEffect | chain/pallets/coop-member-profile/src/lib.rs:167-182 | the info is replaced wholesale; every other field and every other member is unchanged |
| MemberSpec.UpdateMemberProfileInfoPreservesValid | chain/pallets/coop-member-profile/src/lib.rs:159-186 | replacing info keeps the storage invariant |
| MemberSpec.UpdateMemberProfileInfoKeepsRoles | chain/pallets/coop-member-profile/src/lib.rs:167-182 | replacing info changes no account's role check |
| MemberSpec.UpdateMemberRoleEffect | chain/pallets/coop-member-profile/src/lib.rs:197-211 | status becomes Active for a given role list and Suspended for none; the role list is replaced; nothing else changes |
| MemberSpec.UpdateMemberRoleThenHasRole | chain/pallets/coop-member-profile/src/lib.rs:197-211 | after a role update the member holds exactly the roles given; with no list, every role check fails |
| MemberSpec.UpdateMemberRolePreservesValid | chain/pallets/coop-member-profile/src/lib.rs:189-216 | role updates keep the storage invariant |
| MemberSpec.ValidRegistryResolves | chain/pallets/coop-member-profile/src/lib.rs:309-334 | in a valid registry a known account always resolves to a profile |
| MemberSpec.RegisterMemberTwiceFails | chain/pallets/coop-member-profile/src/lib.rs:247-262 | after a registration, registering the same account or the same id again fails |
| MemberPallet.Pallet.constructor | chain/pallets/coop-member-profile/src/lib.rs:46-53 | genesis storage is empty, valid and has no events |
| MemberPallet.Pallet.CheckProfileInfo | chain/pallets/coop-member-profile/src/lib.rs:264-286 | the looping validator returns the member info verdict |
| MemberPallet.Pallet.RegisterMember | chain/pallets/coop-member-profile/src/lib.rs:90-156 | leaves the storage of the register step, deposits one registration event exactly on success, keeps the invariant |
| MemberPallet.Pallet.UpdateMemberProfileInfo | chain/pallets/coop-member-profile/src/lib.rs:159-186 | leaves the storage of the info step, deposits one event exactly on success, keeps the invariant |
| MemberPallet.Pallet.UpdateMemberRole | chain/pallets/coop-member-profile/src/lib.rs:189-216 | leaves the storage of the role step, deposits one event exactly on success, keeps the invariant |
| AssetTypes.AssetProfileBuilder.UpdateAssetId | chain/pallets/coop-asset-profile/src/types.rs:85-88 | sets the asset id and changes nothing else |
| AssetTypes.AssetProfileBuilder.UpdateAssetProfileInfo | chain/pallets/coop-asset-profile/src/types.rs:90-93 | sets the info and changes nothing else |
| AssetTypes.AssetProfileBuilder.UpdateJoinedDate | chain/pallets/coop-asset-profile/src/types.rs:95-98 | sets the join date and changes nothing else |
| AssetTypes.AssetProfileBuilder.UpdateOwner | chain/pallets/coop-asset-profile/src/types.rs:100-103 | the owner list becomes the one account and nothing else changes |
| AssetTypes.AssetProfileBuilder.UpdateKeeper | chain/pallets/coop-asset-profile/src/types.rs:105-108 | the keeper list becomes the one account and nothing else changes |
| AssetTypes.AssetProfileBuilder.Build | chain/pallets/coop-asset-profile/src/types.rs:110-120 | a built profile is a new registration carrying the builder's fields |
| AssetTypes.AssetInsuranceBuilder.UpdateAssetId | chain/pallets/coop-asset-profile/src/types.rs:165-171 | sets the asset id and changes nothing else |
| AssetTypes.AssetInsuranceBuilder.Build | chain/pallets/coop-asset-profile/src/types.rs:173-183 | a built insurance is a new application carrying the builder's fields |
| AssetTypes.AssetInsuranceReClaimBuilder.UpdateAssetId | chain/pallets/coop-asset-profile/src/types.rs:249-255 | sets the asset id and changes nothing else |
| AssetTypes.AssetInsuranceReClaimBuilder.UpdateOwnerNote | chain/pallets/coop-asset-profile/src/types.rs:257-263 | sets the owner note and changes nothing else |
| AssetTypes.AssetInsuranceReClaimBuilder.Build | chain/pallets/coop-asset-profile/src/types.rs:265-275 | a built reclaim is new, has the owner note, and has no community or insurer note |
| AssetTypes.AssetHealthCheckRecBuilder.UpdateAssetId | chain/pallets/coop-asset-profile/src/types.rs:339-345 | sets the asset id and changes nothing else |
| AssetTypes.AssetHealthCheckRecBuilder.UpdateOwnerNote | chain/pallets/coop-asset-profile/src/types.rs:347-353 | sets the owner note and changes nothing else |
| AssetTypes.AssetHealthCheckRecBuilder.Build | chain/pallets/coop-asset-profile/src/types.rs:355-365 | a built record is a new request, has the owner note, and has no officer or community note |
| AssetSpec.RequireRole | chain/pallets/coop-member-profile/src/lib.rs:288-307 | passes exactly when the caller holds the role; a refusal carries the member registry's own error (unknown account, unknown profile or invalid role) |
| AssetSpec.ValidateAssetId | chain/pallets/coop-asset-profile/src/lib.rs:794-799 | passes exactly for ids of 1 to 36 bytes, with the empty and too-long errors |
| AssetSpec.ValidateAssetProfileInfo | chain/pallets/coop-asset-profile/src/lib.rs:801-821 | passes exactly for absent info or at most 10 entries, names of at most 20 bytes and values of at most 40 bytes |
| AssetSpec.ValidateReclaimInfo | chain/pallets/coop-asset-profile/src/lib.rs:932-952 | the same bounds for reclaim notes, with the reclaim errors |
| AssetSpec.ValidateHealthCheckInfo | chain/pallets/coop-asset-profile/src/lib.rs:982-1002 | the same bounds for health-check notes, with the health-check errors |
| AssetSpec.ValidateIsNewAsset | chain/pallets/coop-asset-profile/src/lib.rs:823-834 | passes exactly when the id is in neither the staging nor the canonical store |
| AssetSpec.ValidateAssetOwnership | chain/pallets/coop-asset-profile/src/lib.rs:836-851 | passes exactly when the caller is the last listed owner; an unknown asset and a missing owner list get their own errors |
| AssetSpec.ValidateAssetStatus | chain/pallets/coop-asset-profile/src/lib.rs:853-866 | passes exactly when the asset is registered with the expected status |
| AssetSpec.ValidateAssetInsuranceIsNone | chain/pallets/coop-asset-profile/src/lib.rs:868-880 | passes exactly when the registered asset has no insurance |
| AssetSpec.ValidateAssetInsuranceStatus | chain/pallets/coop-asset-profile/src/lib.rs:882-902 | passes exactly when the asset's insurance has the expected status; an unknown asset and a missing insurance get their own errors |
| AssetSpec.ValidateIsNewInsuranceReclaim | chain/pallets/coop-asset-profile/src/lib.rs:923-930 | passes exactly when no reclaim is staged for the asset |
| AssetSpec.ValidateIsNewHealthcheckRequest | chain/pallets/coop-asset-profile/src/lib.rs:973-980 | passes exactly when no health check is staged for the asset |
| AssetSpec.DecisionPrechecks | chain/pallets/coop-asset-profile/src/lib.rs:467-488 | a reclaim or health-check decision passes its checks exactly when the caller holds the role, the asset is in the farm, its insurance is active and the note is within bounds |
| AssetSpec.AppendIfPresent | chain/pallets/coop-asset-profile/src/lib.rs:680-685 | an absent note list stays absent; a present one gets the new notes appended |
| AssetSpec.RegisterAsset | chain/pallets/coop-asset-profile/src/lib.rs:106-150 | succeeds exactly for an asset owner with a valid, fresh id and valid info; touches only the staging store; a failure writes nothing |
| AssetSpec.ProcessNewAssetRegisterRequest | chain/pallets/coop-asset-profile/src/lib.rs:153-200 | succeeds exactly for a community leader on a staged id that, when approved, is still a new registration; the staging entry is always consumed; a rejection leaves the canonical store alone |
| AssetSpec.RequestInsurance | chain/pallets/coop-asset-profile/src/lib.rs:203-250 | succeeds exactly for the designated owner of an uninsured asset in the farm; an existing insurance is refused as not new |
| AssetSpec.UpdateInsurancePremium | chain/pallets/coop-asset-profile/src/lib.rs:253-295 | succeeds exactly for an insurer on a new application of an asset in the farm; any other insurance status is refused |
| AssetSpec.DepositInsurancePremium | chain/pallets/coop-asset-profile/src/lib.rs:298-353 | succeeds exactly for the designated owner on a quoted premium of an asset in the farm |
| AssetSpec.ApproveInsurance | chain/pallets/coop-asset-profile/src/lib.rs:356-395 | succeeds exactly for an insurer on a paid premium of an asset in the farm |
| AssetSpec.RequestInsuranceReclaim | chain/pallets/coop-asset-profile/src/lib.rs:398-458 | succeeds exactly for the designated owner of an asset in the farm with active insurance, valid notes and no staged reclaim; an already staged reclaim is refused with its own error; touches only the reclaim store |
| AssetSpec.CommunityApproveInsuranceReclaim | chain/pallets/coop-asset-profile/src/lib.rs:461-518 | succeeds exactly when the prechecks pass and a new reclaim is staged, with distinct errors for a missing reclaim and a wrong status |
| AssetSpec.InsurerApproveInsuranceReclaim | chain/pallets/coop-asset-profile/src/lib.rs:521-578 | succeeds exactly when the prechecks pass and the staged reclaim is community-approved |
| AssetSpec.RequestHealthcheck | chain/pallets/coop-asset-profile/src/lib.rs:581-641 | succeeds exactly for the designated owner of an asset in the farm with active insurance, valid notes and no staged health check; an already staged request is refused with its own error |
| AssetSpec.HealthofficerRemark | chain/pallets/coop-asset-profile/src/lib.rs:644-707 | succeeds exactly when the prechecks pass and the staged record is a new request or in treatment |
| AssetSpec.CommunityRemark | chain/pallets/coop-asset-profile/src/lib.rs:710-768 | succeeds exactly when the prechecks pass and treatment is done |
| AssetSpec.Dispatch | chain/pallets/coop-asset-profile/src/lib.rs:101-769 | whichever dispatchable is called, a failure leaves storage unchanged |
| AssetWorkflow.ValidOwnerListsNonEmpty | chain/pallets/coop-asset-profile/src/lib.rs:846-849 | in valid storage the ownership check's unwrap cannot panic |
| AssetWorkflow.RegisterAssetPreservesValid | chain/pallets/coop-asset-profile/src/lib.rs:106-150 | registration keeps the storage invariant, including staging and canonical stores being disjoint |
| AssetWorkflow.ProcessNewAssetRegisterRequestPreservesValid | chain/pallets/coop-asset-profile/src/lib.rs:153-200 | processing a registration keeps the invariant: the id moves, never sits in both stores |
| AssetWorkflow.RequestInsurancePreservesValid | chain/pallets/coop-asset-profile/src/lib.rs:203-250 | requesting insurance keeps the invariant |
| AssetWorkflow.UpdateInsurancePremiumPreservesValid | chain/pallets/coop-asset-profile/src/lib.rs:253-295 | quoting keeps the invariant |
| AssetWorkflow.DepositInsurancePremiumPreservesValid | chain/pallets/coop-asset-profile/src/lib.rs:298-353 | depositing keeps the invariant |
| AssetWorkflow.ApproveInsurancePreservesValid | chain/pallets/coop-asset-profile/src/lib.rs:356-395 | approving keeps the invariant |
| AssetWorkflow.RequestInsuranceReclaimPreservesValid | chain/pallets/coop-asset-profile/src/lib.rs:398-458 | a reclaim is only staged for an asset with active insurance |
| AssetWorkflow.CommunityApproveInsuranceReclaimPreservesValid | chain/pallets/coop-asset-profile/src/lib.rs:461-518 | the community decision keeps the invariant |
| AssetWorkflow.InsurerApproveInsuranceReclaimPreservesValid | chain/pallets/coop-asset-profile/src/lib.rs:521-578 | the insurer decision keeps the invariant |
| AssetWorkflow.RequestHealthcheckPreservesValid | chain/pallets/coop-asset-profile/src/lib.rs:581-641 | a health check is only staged for an asset with active insurance |
| AssetWorkflow.HealthofficerRemarkPreservesValid | chain/pallets/coop-asset-profile/src/lib.rs:644-707 | the officer's remark keeps the invariant, so the officer note stays absent |
| AssetWorkflow.CommunityRemarkPreservesValid | chain/pallets/coop-asset-profile/src/lib.rs:710-768 | the community remark keeps the invariant, so the community note stays absent |
| AssetWorkflow.DispatchPreservesValid | chain/pallets/coop-asset-profile/src/lib.rs:101-769 | every call of the pallet keeps the storage invariant |
| AssetWorkflow.RegisterAssetFollowsWorkflows | chain/pallets/coop-asset-profile/src/lib.rs:106-150 | registration only moves an unregistered id to staged |
| AssetWorkflow.ProcessNewAssetRegisterRequestFollowsWorkflows | chain/pallets/coop-asset-profile/src/lib.rs:153-200 | processing only moves a staged id to registered or back to unregistered |
| AssetWorkflow.RequestInsuranceFollowsWorkflows | chain/pallets/coop-asset-profile/src/lib.rs:203-250 | a request only creates a new application |
| AssetWorkflow.UpdateInsurancePremiumFollowsWorkflows | chain/pallets/coop-asset-profile/src/lib.rs:253-295 | quoting only moves a new application to quoted |
| AssetWorkflow.DepositInsurancePremiumFollowsWorkflows | chain/pallets/coop-asset-profile/src/lib.rs:298-353 | depositing only moves quoted to paid |
| AssetWorkflow.ApproveInsuranceFollowsWorkflows | chain/pallets/coop-asset-profile/src/lib.rs:356-395 | approving only moves paid to active |
| AssetWorkflow.RequestInsuranceReclaimFollowsWorkflows | chain/pallets/coop-asset-profile/src/lib.rs:398-458 | a reclaim request only creates a new reclaim |
| AssetWorkflow.CommunityApproveInsuranceReclaimFollowsWorkflows | chain/pallets/coop-asset-profile/src/lib.rs:461-518 | the community only moves a new reclaim to approved or disapproved |
| AssetWorkflow.InsurerApproveInsuranceReclaimFollowsWorkflows | chain/pallets/coop-asset-profile/src/lib.rs:521-578 | the insurer only moves a community-approved reclaim to approved or disapproved |
| AssetWorkflow.RequestHealthcheckFollowsWorkflows | chain/pallets/coop-asset-profile/src/lib.rs:581-641 | a health-check request only creates a new request |
| AssetWorkflow.HealthofficerRemarkFollowsWorkflows | chain/pallets/coop-asset-profile/src/lib.rs:644-707 | the officer only moves a new or in-treatment record to in treatment or done |
| AssetWorkflow.CommunityRemarkFollowsWorkflows | chain/pallets/coop-asset-profile/src/lib.rs:710-768 | the community only moves a finished treatment to community-approved, or leaves it |
| AssetWorkflow.DispatchFollowsWorkflows | chain/pallets/coop-asset-profile/src/lib.rs:101-769 | no call ever moves an asset's registration, insurance, reclaim or health check backwards or skips a step, and a registered asset is never removed |
| AssetWorkflow.ProcessNewAssetRegisterRequestTwiceFails | chain/pallets/coop-asset-profile/src/lib.rs:166-174 | a staged registration can be decided only once; the second decision fails with the invalid-id error |
| AssetWorkflow.RegisterAssetTwiceFails | chain/pallets/coop-asset-profile/src/lib.rs:823-834 | an asset id cannot be registered twice |
| AssetWorkflow.DepositInsurancePremiumIgnoresAmount | chain/pallets/coop-asset-profile/src/lib.rs:325-340 | the outcome and resulting storage of a premium deposit do not depend on the amount |
| AssetWorkflow.RegistrationScenario | chain/pallets/coop-asset-profile/src/lib.rs:106-200 | register then approve yields an asset in the farm, owned and kept by the registrant alone, without insurance |
| AssetWorkflow.InsuranceScenario | chain/pallets/coop-asset-profile/src/lib.rs:203-395 | request, quote, deposit, approve all succeed; the insurance ends active with the quoted premium and start and expiry at the approval time; the rest of the profile is unchanged |
| AssetWorkflow.ReclaimScenario | chain/pallets/coop-asset-profile/src/lib.rs:398-578 | request, community approval and insurer approval all succeed; the reclaim ends insurer-approved with each party's note |
| AssetWorkflow.HealthCheckScenario | chain/pallets/coop-asset-profile/src/lib.rs:581-768 | request, officer remark and community remark all succeed; the record ends community-approved with the officer's and community's notes dropped |
| AssetWorkflow.CommunityRemarkDisapprovalKeepsRecord | chain/pallets/coop-asset-profile/src/lib.rs:741-758 | a successful disapproval of a finished treatment leaves storage unchanged |
| AssetWorkflow.ReclaimDecisionReplacesNote | chain/pallets/coop-asset-profile/src/lib.rs:490-503 | each reclaim decision replaces its decider's note and sets the decided status |
| AssetWorkflow.RegisterAssetCheckOrder | chain/pallets/coop-asset-profile/src/lib.rs:111-140 | the role, id, info and freshness checks run in that order, each with its error (a refused role with the member registry's own error); success stages a new registration owned and kept by the caller, joined now, without insurance |
| AssetWorkflow.ProcessNewAssetRegisterRequestEffect | chain/pallets/coop-asset-profile/src/lib.rs:166-189 | approval moves the staged profile, set to in-farm, into the canonical store; rejection only removes it from staging |
| AssetWorkflow.RequestInsuranceEffect | chain/pallets/coop-asset-profile/src/lib.rs:203-250 | a request gives the one asset a fresh application (status new, all amounts and dates zero) and leaves every other profile unchanged |
| AssetWorkflow.RequestInsuranceReclaimEffect | chain/pallets/coop-asset-profile/src/lib.rs:398-458 | a request stages exactly one new reclaim with the owner's notes and no decision, leaving every other staged reclaim unchanged |
| AssetWorkflow.RequestHealthcheckEffect | chain/pallets/coop-asset-profile/src/lib.rs:581-641 | a request stages exactly one new health-check record with the owner's notes and no remarks, leaving every other staged record unchanged |
| AssetWorkflow.InsuranceStepErrors | chain/pallets/coop-asset-profile/src/lib.rs:882-921 | quote, deposit and approval each refuse a missing insurance, a wrong predecessor status and an asset outside the farm with the source's error |
| AssetWorkflow.InsuranceStepEffects | chain/pallets/coop-asset-profile/src/lib.rs:276-278 | a quote stores the premium, a deposit only marks the premium paid, an approval activates with start and expiry now; nothing else changes |
| AssetWorkflow.HealthCheckRemarkEffects | chain/pallets/coop-asset-profile/src/lib.rs:678-696 | in valid storage a remark changes only the status (done or in treatment; community-approved or unchanged), and the given notes are dropped |
| AssetPallet.Pallet.constructor | chain/pallets/coop-asset-profile/src/lib.rs:34-45 | genesis storage is empty, valid and has no events |
| AssetPallet.Pallet.RequireRole | chain/pallets/coop-member-profile/src/lib.rs:288-307 | the role gate on the member registry object agrees with the role check |
| AssetPallet.Pallet.CheckAssetProfileInfo | chain/pallets/coop-asset-profile/src/lib.rs:801-821 | the looping validator returns the profile-info verdict |
| AssetPallet.Pallet.CheckReclaimInfo | chain/pallets/coop-asset-profile/src/lib.rs:932-952 | the looping validator returns the reclaim-note verdict |
| AssetPallet.Pallet.CheckHealthCheckInfo | chain/pallets/coop-asset-profile/src/lib.rs:982-1002 | the looping validator returns the health-check-note verdict |
| AssetPallet.Pallet.DecisionPrechecks | chain/pallets/coop-asset-profile/src/lib.rs:467-488 | the shared decision checks on the object agree with the step functions' |
| AssetPallet.Pallet.RegisterAsset | chain/pallets/coop-asset-profile/src/lib.rs:106-150 | leaves the storage of the register step, deposits one event exactly on success, keeps the invariant |
| AssetPallet.Pallet.ProcessNewAssetRegisterRequest | chain/pallets/coop-asset-profile/src/lib.rs:153-200 | the same for processing a registration |
| AssetPallet.Pallet.RequestInsurance | chain/pallets/coop-asset-profile/src/lib.rs:203-250 | the same for requesting insurance |
| AssetPallet.Pallet.UpdateInsurancePremium | chain/pallets/coop-asset-profile/src/lib.rs:253-295 | the same for quoting a premium |
| AssetPallet.Pallet.DepositInsurancePremium | chain/pallets/coop-asset-profile/src/lib.rs:298-353 | the same for depositing a premium |
| AssetPallet.Pallet.ApproveInsurance | chain/pallets/coop-asset-profile/src/lib.rs:356-395 | the same for approving insurance |
| AssetPallet.Pallet.RequestInsuranceReclaim | chain/pallets/coop-asset-profile/src/lib.rs:398-458 | the same for requesting a reclaim |
| AssetPallet.Pallet.CommunityApproveInsuranceReclaim | chain/pallets/coop-asset-profile/src/lib.rs:461-518 | the same for the community's reclaim decision |
| AssetPallet.Pallet.InsurerApproveInsuranceReclaim | chain/pallets/coop-asset-profile/src/lib.rs:521-578 | the same for the insurer's reclaim decision |
| AssetPallet.Pallet.RequestHealthcheck | chain/pallets/coop-asset-profile/src/lib.rs:581-641 | the same for requesting a health check |
| AssetPallet.Pallet.HealthofficerRemark | chain/pallets/coop-asset-profile/src/lib.rs:644-707 | the same for the officer's remark |
| AssetPallet.Pallet.CommunityRemark | chain/pallets/coop-asset-profile/src/lib.rs:710-768 | the same for the community's remark |

## Left out

- The value-transfer ledger is not modelled. Registering a member and
  depositing a premium both call it and ignore its result. The free balance
  of the account being registered is a parameter instead.
- `coop_account_id` is not modelled. It derives the treasury account from
  the society index and is used only as a transfer target.
- Origins are not modelled. The create-role check of the member registry
  is a `privileged` flag. A signed origin is the caller's account `who`.
- The timestamp is a `now` parameter.
- The runtime macros are left out: storage declarations, weights, hashers,
  the SCALE codec and the genesis configuration.
- The mock runtime is left out.
- Events are kept in an in-memory list on each pallet object.
- Integer widths are not modelled. Lengths, balances, karma and times are
  unbounded, because no modelled operation does arithmetic on them.
- A missing asset in a `try_mutate_*` lookup is not modelled separately.
  Each lookup follows a check that already failed on a missing asset with
  the same error, so the model indexes the map directly.
- ValidateAssetOwnership: requires owner lists to be non-empty. An empty
  `Some` owner list would make the source's `unwrap` panic. Valid storage
  never holds one (`AssetWorkflow.ValidOwnerListsNonEmpty`).
- The member registry's `new_member_profile` and the asset registry's
  `new_asset_*` helpers are the builders' default values
  (`DefaultMemberProfileBuilder` and the `Default*Builder` constants).

/** The member registry pallet as a stateful object: its two storage maps and
    its event log are fields, and each dispatchable is a method that runs the
    source's checks in order and writes storage only when all of them pass. */
module MemberPallet {
  import opened Base
  import opened BoundedInfo
  import opened MemberTypes
  import MemberSpec

  datatype Event =
    | MemberProfileRegistered(who: AccountId, id: SocietyMemberShipId, acc: AccountId)
    | MemberProfileInfoUpdated(who: AccountId, acc: AccountId)
    | MemberProfileRoleUpdated(who: AccountId, acc: AccountId)

  class Pallet {
    /** `MemberId`: account to membership id. */
    var memberIds: map<AccountId, SocietyMemberShipId>
    /** `MemberProfiles`: membership id to profile. */
    var memberProfiles: map<SocietyMemberShipId, MemberProfile>
    /** Events deposited so far, oldest first. */
    var events: seq<Event>
    /** `T::MemberDepositValueMinimum`. */
    const memberDepositValueMinimum: Balance

    function Store(): MemberSpec.MemberStore
      reads this
    {
      MemberSpec.MemberStore(memberIds, memberProfiles)
    }

    ghost predicate Valid()
      reads this
    {
      Store().Valid()
    }

    /** Genesis: empty storage and no events. */
    constructor (minimumDeposit: Balance)
      ensures Valid()
      ensures memberIds == map[] && memberProfiles == map[] && events == []
      ensures memberDepositValueMinimum == minimumDeposit
    {
      memberIds := map[];
      memberProfiles := map[];
      events := [];
      memberDepositValueMinimum := minimumDeposit;
    }

    /** `validate_member_profile_info`, run as the source's loop. */
    static method CheckProfileInfo(info: Option<seq<MemberProfileInfo>>) returns (r: Outcome<MemberSpec.Error>)
      ensures r == MemberSpec.ValidateMemberProfileInfo(info)
    {
      var v := ValidateInfos(info, MemberInfoLimits);
      r := if v.Pass? then Pass else Fail(MemberSpec.InfoError(v.error));
    }

    /** `register_member`: `privileged` is the outcome of
        `CreateRoleOrigin::ensure_origin`, `who` the signer, `freeBalance`
        the free balance of `acc`, `now` the timestamp. */
    method RegisterMember(
      privileged: bool, who: AccountId, acc: AccountId, id: SocietyMemberShipId,
      info: Option<seq<MemberProfileInfo>>, depositValue: Balance, freeBalance: Balance, now: Moment)
      returns (r: Outcome<MemberSpec.Error>)
      modifies this
      ensures MemberSpec.Step(r, Store())
              == MemberSpec.RegisterMember(old(Store()), memberDepositValueMinimum, privileged,
                                           acc, id, info, depositValue, freeBalance, now)
      ensures events == if r.Pass? then old(events) + [MemberProfileRegistered(who, id, acc)] else old(events)
      ensures old(Valid()) ==> Valid()
    {
      if Valid() {
        MemberSpec.RegisterMemberPreservesValid(Store(), memberDepositValueMinimum, privileged,
                                                acc, id, info, depositValue, freeBalance, now);
      }
      if !privileged {
        return Fail(MemberSpec.BadOrigin);
      }
      r := MemberSpec.ValidateMembershipId(id);
      if r.Fail? {
        return;
      }
      r := CheckProfileInfo(info);
      if r.Fail? {
        return;
      }
      r := MemberSpec.ValidateNewMember(Store(), id, acc);
      if r.Fail? {
        return;
      }
      if depositValue < memberDepositValueMinimum {
        return Fail(MemberSpec.MemberDepositValueInvalid);
      }
      if freeBalance < memberDepositValueMinimum {
        return Fail(MemberSpec.MemberAccountBalanceLow);
      }
      var profile := DefaultMemberProfileBuilder
        .UpdateSocietyMembershipId(id)
        .UpdateMemberAcc(acc)
        .UpdateJoinedDate(now)
        .UpdateMemberProfileInfo(info)
        .UpdateDeposit(depositValue)
        .Build();
      memberIds := memberIds[acc := id];
      memberProfiles := memberProfiles[id := profile];
      events := events + [MemberProfileRegistered(who, id, acc)];
    }

    /** `update_member_profile_info`. */
    method UpdateMemberProfileInfo(
      privileged: bool, who: AccountId, acc: AccountId, info: Option<seq<MemberProfileInfo>>)
      returns (r: Outcome<MemberSpec.Error>)
      modifies this
      ensures MemberSpec.Step(r, Store()) == MemberSpec.UpdateMemberProfileInfo(old(Store()), privileged, acc, info)
      ensures events == if r.Pass? then old(events) + [MemberProfileInfoUpdated(who, acc)] else old(events)
      ensures old(Valid()) ==> Valid()
    {
      if Valid() {
        MemberSpec.UpdateMemberProfileInfoPreservesValid(Store(), privileged, acc, info);
      }
      if !privileged {
        return Fail(MemberSpec.BadOrigin);
      }
      if info.None? {
        return Fail(MemberSpec.MemberProfileInfoEmpty);
      }
      r := CheckProfileInfo(info);
      if r.Fail? {
        return;
      }
      var id := MemberSpec.ResolveMember(Store(), acc);
      if id.Err? {
        return Fail(id.error);
      }
      var p := memberProfiles[id.value];
      memberProfiles := memberProfiles[id.value := p.(profInfo := info)];
      events := events + [MemberProfileInfoUpdated(who, acc)];
    }

    /** `update_member_role`. */
    method UpdateMemberRole(
      privileged: bool, who: AccountId, acc: AccountId, roles: Option<seq<MemberRole>>)
      returns (r: Outcome<MemberSpec.Error>)
      modifies this
      ensures MemberSpec.Step(r, Store()) == MemberSpec.UpdateMemberRole(old(Store()), privileged, acc, roles)
      ensures events == if r.Pass? then old(events) + [MemberProfileRoleUpdated(who, acc)] else old(events)
      ensures old(Valid()) ==> Valid()
    {
      if Valid() {
        MemberSpec.UpdateMemberRolePreservesValid(Store(), privileged, acc, roles);
      }
      if !privileged {
        return Fail(MemberSpec.BadOrigin);
      }
      var status := if roles.Some? then Active else Suspended;
      var id := MemberSpec.ResolveMember(Store(), acc);
      if id.Err? {
        return Fail(id.error);
      }
      var p := memberProfiles[id.value];
      memberProfiles := memberProfiles[id.value := p.(memberStatus := Some(status), role := roles)];
      events := events + [MemberProfileRoleUpdated(who, acc)];
      r := Pass;
    }
  }
}

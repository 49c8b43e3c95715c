/** The member registry as pure functions over its two storage maps: the
    read-only checks of the pallet and one step function per dispatchable,
    giving the call's result and the storage it leaves behind. */
module MemberSpec {
  import opened Base
  import opened BoundedInfo
  import opened MemberTypes

  datatype Error =
    | BadOrigin
    | SocietyMemberIdEmpty
    | SocietyMemberIdTooLong
    | MemberIdAlreadyExists
    | MemberAccountAlreadyExists
    | UnknownMemberAccount
    | UnknownMemberProfile
    | MemberProfileTooManyInfos
    | MemberProfileInvalidInfoName
    | MemberProfileInvalidInfoValue
    | MemberProfileInfoEmpty
    | MemberRoleInvalid
    | MemberDepositValueInvalid
    | MemberAccountBalanceLow

  /** The pallet's storage: `MemberId` (account to membership id) and
      `MemberProfiles` (membership id to profile). */
  datatype MemberStore = MemberStore(
    memberIds: map<AccountId, SocietyMemberShipId>,
    memberProfiles: map<SocietyMemberShipId, MemberProfile>)
  {
    /** The registry invariant: accounts and membership ids are in one-to-one
        correspondence, every profile is stored under its own id and owned by
        the account that maps to it, and every stored profile is well formed. */
    ghost predicate Valid() {
      && (forall acc :: acc in memberIds ==>
            memberIds[acc] in memberProfiles && memberProfiles[memberIds[acc]].memberAcc == acc)
      && (forall id :: id in memberProfiles ==>
            && ProfileWellFormed(id, memberProfiles[id])
            && memberProfiles[id].memberAcc in memberIds
            && memberIds[memberProfiles[id].memberAcc] == id)
    }
  }

  /** What every stored profile satisfies: a valid id equal to its key, info
      within the member bounds, zero karma, never `Terminated`, and roles
      present exactly when the status is `Active`. */
  ghost predicate ProfileWellFormed(id: SocietyMemberShipId, p: MemberProfile) {
    && p.societyMembershipId == id
    && 0 < |id| <= SocietyMembershipIdMaxLength
    && CheckInfos(p.profInfo, MemberInfoLimits) == Pass
    && p.karma == 0
    && p.memberStatus != Some(Terminated)
    && (p.role.Some? <==> p.memberStatus == Some(Active))
  }

  /** The result of one dispatchable: its outcome and the storage after it. */
  datatype Step = Step(outcome: Outcome<Error>, post: MemberStore)

  /** `validate_membership_id`. */
  function ValidateMembershipId(id: SocietyMemberShipId): (r: Outcome<Error>)
    ensures r == Pass <==> 0 < |id| <= SocietyMembershipIdMaxLength
    ensures r == Fail(SocietyMemberIdEmpty) <==> |id| == 0
    ensures r == Fail(SocietyMemberIdTooLong) <==> |id| > SocietyMembershipIdMaxLength
  {
    match CheckId(id, SocietyMembershipIdMaxLength)
    case Pass => Pass
    case Fail(IdEmpty) => Fail(SocietyMemberIdEmpty)
    case Fail(IdTooLong) => Fail(SocietyMemberIdTooLong)
  }

  /** The pallet's names for the validator's three failures. */
  function InfoError(v: InfoViolation): Error {
    match v
    case TooManyInfos => MemberProfileTooManyInfos
    case InvalidInfoName => MemberProfileInvalidInfoName
    case InvalidInfoValue => MemberProfileInvalidInfoValue
  }

  /** `validate_member_profile_info`: at most 5 entries, names of at most 10
      bytes, values of at most 20 bytes; an absent list passes. */
  function ValidateMemberProfileInfo(info: Option<seq<MemberProfileInfo>>): (r: Outcome<Error>)
    ensures r == Pass <==> (info.None? || WithinLimits(info.value, MemberInfoLimits))
    ensures r == Fail(MemberProfileTooManyInfos) <==> (info.Some? && |info.value| > MemberProfileMaxInfo)
    ensures r.Fail? ==> r.error in {MemberProfileTooManyInfos, MemberProfileInvalidInfoName, MemberProfileInvalidInfoValue}
  {
    CheckInfosCorrect(info, MemberInfoLimits);
    match CheckInfos(info, MemberInfoLimits)
    case Pass => Pass
    case Fail(v) => Fail(InfoError(v))
  }

  /** `validate_new_member`: the membership id is checked before the account. */
  function ValidateNewMember(s: MemberStore, id: SocietyMemberShipId, acc: AccountId): (r: Outcome<Error>)
    ensures r == Pass <==> id !in s.memberProfiles && acc !in s.memberIds
    ensures r == Fail(MemberIdAlreadyExists) <==> id in s.memberProfiles
    ensures r.Fail? ==> r.error in {MemberIdAlreadyExists, MemberAccountAlreadyExists}
  {
    if id in s.memberProfiles then Fail(MemberIdAlreadyExists)
    else if acc in s.memberIds then Fail(MemberAccountAlreadyExists)
    else Pass
  }

  /** The lookup half of `try_mutate_memberprofiles`: account to membership
      id to stored profile. */
  function ResolveMember(s: MemberStore, acc: AccountId): (r: Result<SocietyMemberShipId, Error>)
    ensures r.Ok? <==> acc in s.memberIds && s.memberIds[acc] in s.memberProfiles
    ensures r.Ok? ==> r.value == s.memberIds[acc]
    ensures r == Err(UnknownMemberAccount) <==> acc !in s.memberIds
    ensures r.Err? ==> r.error in {UnknownMemberAccount, UnknownMemberProfile}
  {
    if acc !in s.memberIds then Err(UnknownMemberAccount)
    else if s.memberIds[acc] !in s.memberProfiles then Err(UnknownMemberProfile)
    else Ok(s.memberIds[acc])
  }

  /** True when `acc` resolves to a profile that lists `role`. */
  ghost predicate HoldsRole(s: MemberStore, acc: AccountId, role: MemberRole) {
    && acc in s.memberIds
    && s.memberIds[acc] in s.memberProfiles
    && s.memberProfiles[s.memberIds[acc]].role.Some?
    && role in s.memberProfiles[s.memberIds[acc]].role.value
  }

  /** `is_valid_member_role`, the role gate every asset workflow call starts
      with. It reads storage only. */
  function HasRole(s: MemberStore, acc: AccountId, role: MemberRole): (r: Outcome<Error>)
    ensures r == Pass <==> HoldsRole(s, acc, role)
    ensures r == Fail(UnknownMemberAccount) <==> acc !in s.memberIds
    ensures r == Fail(UnknownMemberProfile) <==> acc in s.memberIds && s.memberIds[acc] !in s.memberProfiles
    ensures r.Fail? ==> r.error in {UnknownMemberAccount, UnknownMemberProfile, MemberRoleInvalid}
  {
    match ResolveMember(s, acc)
    case Err(e) => Fail(e)
    case Ok(id) =>
      var roles := s.memberProfiles[id].role;
      if roles.Some? && role in roles.value then Pass else Fail(MemberRoleInvalid)
  }

  /** `register_member`. The free balance of the new account is a parameter,
      the deposit transfer to the society account is not modelled (its result
      is discarded by the source). */
  function RegisterMember(
    s: MemberStore, minimumDeposit: Balance, privileged: bool,
    acc: AccountId, id: SocietyMemberShipId, info: Option<seq<MemberProfileInfo>>,
    depositValue: Balance, freeBalance: Balance, now: Moment): (r: Step)
    ensures r.outcome.Fail? ==> r.post == s
    ensures r.outcome == Pass <==>
              && privileged
              && 0 < |id| <= SocietyMembershipIdMaxLength
              && (info.None? || WithinLimits(info.value, MemberInfoLimits))
              && id !in s.memberProfiles && acc !in s.memberIds
              && depositValue >= minimumDeposit
              && freeBalance >= minimumDeposit
  {
    if !privileged then Step(Fail(BadOrigin), s)
    else if ValidateMembershipId(id).Fail? then Step(ValidateMembershipId(id), s)
    else if ValidateMemberProfileInfo(info).Fail? then Step(ValidateMemberProfileInfo(info), s)
    else if ValidateNewMember(s, id, acc).Fail? then Step(ValidateNewMember(s, id, acc), s)
    else if depositValue < minimumDeposit then Step(Fail(MemberDepositValueInvalid), s)
    else if freeBalance < minimumDeposit then Step(Fail(MemberAccountBalanceLow), s)
    else
      var profile := DefaultMemberProfileBuilder
        .UpdateSocietyMembershipId(id)
        .UpdateMemberAcc(acc)
        .UpdateJoinedDate(now)
        .UpdateMemberProfileInfo(info)
        .UpdateDeposit(depositValue)
        .Build();
      Step(Pass, MemberStore(s.memberIds[acc := id], s.memberProfiles[id := profile]))
  }

  /** `update_member_profile_info`: the info list replaces the old one
      wholesale. */
  function UpdateMemberProfileInfo(
    s: MemberStore, privileged: bool, acc: AccountId, info: Option<seq<MemberProfileInfo>>): (r: Step)
    ensures r.outcome.Fail? ==> r.post == s
    ensures r.outcome == Pass <==>
              && privileged && info.Some? && WithinLimits(info.value, MemberInfoLimits)
              && acc in s.memberIds && s.memberIds[acc] in s.memberProfiles
    ensures !privileged ==> r.outcome == Fail(BadOrigin)
    ensures privileged && info.None? ==> r.outcome == Fail(MemberProfileInfoEmpty)
    ensures privileged && info.Some? && !WithinLimits(info.value, MemberInfoLimits) ==>
              r.outcome == ValidateMemberProfileInfo(info)
    ensures privileged && info.Some? && WithinLimits(info.value, MemberInfoLimits) && acc !in s.memberIds ==>
              r.outcome == Fail(UnknownMemberAccount)
    ensures privileged && info.Some? && WithinLimits(info.value, MemberInfoLimits)
            && acc in s.memberIds && s.memberIds[acc] !in s.memberProfiles ==>
              r.outcome == Fail(UnknownMemberProfile)
  {
    if !privileged then Step(Fail(BadOrigin), s)
    else if info.None? then Step(Fail(MemberProfileInfoEmpty), s)
    else if ValidateMemberProfileInfo(info).Fail? then Step(ValidateMemberProfileInfo(info), s)
    else match ResolveMember(s, acc)
      case Err(e) => Step(Fail(e), s)
      case Ok(id) =>
        var p := s.memberProfiles[id];
        Step(Pass, s.(memberProfiles := s.memberProfiles[id := p.(profInfo := info)]))
  }

  /** `update_member_role`: any `Some` list (even an empty one) makes the
      member `Active`, `None` makes it `Suspended`; the role list is replaced
      wholesale. */
  function UpdateMemberRole(
    s: MemberStore, privileged: bool, acc: AccountId, roles: Option<seq<MemberRole>>): (r: Step)
    ensures r.outcome.Fail? ==> r.post == s
    ensures r.outcome == Pass <==> privileged && acc in s.memberIds && s.memberIds[acc] in s.memberProfiles
    ensures !privileged ==> r.outcome == Fail(BadOrigin)
    ensures privileged && acc !in s.memberIds ==> r.outcome == Fail(UnknownMemberAccount)
    ensures privileged && acc in s.memberIds && s.memberIds[acc] !in s.memberProfiles ==>
              r.outcome == Fail(UnknownMemberProfile)
  {
    if !privileged then Step(Fail(BadOrigin), s)
    else
      var status := if roles.Some? then Active else Suspended;
      match ResolveMember(s, acc)
      case Err(e) => Step(Fail(e), s)
      case Ok(id) =>
        var p := s.memberProfiles[id];
        Step(Pass, s.(memberProfiles := s.memberProfiles[id := p.(memberStatus := Some(status), role := roles)]))
  }

  // ---------------------------------------------------------------------
  // Properties of the registry

  /** Admission writes exactly the two entries: the account maps to the new
      id, the new profile belongs to the account, starts with no status, no
      roles and zero karma, and every other entry is as it was. */
  lemma RegisterMemberEffect(
    s: MemberStore, minimumDeposit: Balance, privileged: bool,
    acc: AccountId, id: SocietyMemberShipId, info: Option<seq<MemberProfileInfo>>,
    depositValue: Balance, freeBalance: Balance, now: Moment)
    requires RegisterMember(s, minimumDeposit, privileged, acc, id, info, depositValue, freeBalance, now).outcome == Pass
    ensures var t := RegisterMember(s, minimumDeposit, privileged, acc, id, info, depositValue, freeBalance, now).post;
            && t.memberIds.Keys == s.memberIds.Keys + {acc}
            && t.memberProfiles.Keys == s.memberProfiles.Keys + {id}
            && t.memberIds[acc] == id
            && t.memberProfiles[id] == MemberProfile(acc, id, info, now, None, None, 0, depositValue)
            && (forall a :: a in s.memberIds ==> t.memberIds[a] == s.memberIds[a])
            && (forall i :: i in s.memberProfiles ==> t.memberProfiles[i] == s.memberProfiles[i])
  {
  }

  /** `register_member` runs its checks in order and reports the first that
      fails: the origin, the membership id, the profile info, an id already
      registered, an account already registered, a deposit below the
      minimum, and a free balance below the minimum. */
  lemma RegisterMemberCheckOrder(
    s: MemberStore, minimumDeposit: Balance, privileged: bool,
    acc: AccountId, id: SocietyMemberShipId, info: Option<seq<MemberProfileInfo>>,
    depositValue: Balance, freeBalance: Balance, now: Moment)
    ensures var r := RegisterMember(s, minimumDeposit, privileged, acc, id, info, depositValue, freeBalance, now).outcome;
            && (!privileged ==> r == Fail(BadOrigin))
            && (privileged ==>
                  && (|id| == 0 ==> r == Fail(SocietyMemberIdEmpty))
                  && (|id| > SocietyMembershipIdMaxLength ==> r == Fail(SocietyMemberIdTooLong))
                  && (0 < |id| <= SocietyMembershipIdMaxLength ==>
                        && (info.Some? && |info.value| > MemberProfileMaxInfo ==>
                              r == Fail(MemberProfileTooManyInfos))
                        && (info.Some? && !WithinLimits(info.value, MemberInfoLimits) ==>
                              r == ValidateMemberProfileInfo(info)
                              && r.error in {MemberProfileTooManyInfos, MemberProfileInvalidInfoName,
                                             MemberProfileInvalidInfoValue})
                        && ((info.None? || WithinLimits(info.value, MemberInfoLimits)) ==>
                              && (id in s.memberProfiles ==> r == Fail(MemberIdAlreadyExists))
                              && (id !in s.memberProfiles && acc in s.memberIds ==>
                                    r == Fail(MemberAccountAlreadyExists))
                              && (id !in s.memberProfiles && acc !in s.memberIds ==>
                                    && (depositValue < minimumDeposit ==> r == Fail(MemberDepositValueInvalid))
                                    && (depositValue >= minimumDeposit && freeBalance < minimumDeposit ==>
                                          r == Fail(MemberAccountBalanceLow))))))
  {
  }

  /** A newly admitted member holds no role, so the role gate refuses every
      role for it until `update_member_role` runs. */
  lemma RegisteredMemberHasNoRole(
    s: MemberStore, minimumDeposit: Balance, privileged: bool,
    acc: AccountId, id: SocietyMemberShipId, info: Option<seq<MemberProfileInfo>>,
    depositValue: Balance, freeBalance: Balance, now: Moment, role: MemberRole)
    requires RegisterMember(s, minimumDeposit, privileged, acc, id, info, depositValue, freeBalance, now).outcome == Pass
    ensures HasRole(RegisterMember(s, minimumDeposit, privileged, acc, id, info, depositValue, freeBalance, now).post, acc, role)
            == Fail(MemberRoleInvalid)
  {
  }

  /** Admission keeps the registry invariant. */
  lemma RegisterMemberPreservesValid(
    s: MemberStore, minimumDeposit: Balance, privileged: bool,
    acc: AccountId, id: SocietyMemberShipId, info: Option<seq<MemberProfileInfo>>,
    depositValue: Balance, freeBalance: Balance, now: Moment)
    requires s.Valid()
    ensures RegisterMember(s, minimumDeposit, privileged, acc, id, info, depositValue, freeBalance, now).post.Valid()
  {
    var r := RegisterMember(s, minimumDeposit, privileged, acc, id, info, depositValue, freeBalance, now);
    if r.outcome == Pass {
      CheckInfosCorrect(info, MemberInfoLimits);
      var t := r.post;
      forall i | i in t.memberProfiles
        ensures ProfileWellFormed(i, t.memberProfiles[i])
        ensures t.memberProfiles[i].memberAcc in t.memberIds
        ensures t.memberIds[t.memberProfiles[i].memberAcc] == i
      {
        if i != id {
          assert t.memberProfiles[i] == s.memberProfiles[i];
        }
      }
    }
  }

  /** A profile-info update replaces the info of the resolved profile and
      changes nothing else. */
  lemma UpdateMemberProfileInfoEffect(
    s: MemberStore, privileged: bool, acc: AccountId, info: Option<seq<MemberProfileInfo>>)
    requires UpdateMemberProfileInfo(s, privileged, acc, info).outcome == Pass
    ensures var t := UpdateMemberProfileInfo(s, privileged, acc, info).post;
            && t.memberIds == s.memberIds
            && t.memberProfiles.Keys == s.memberProfiles.Keys
            && t.memberProfiles[s.memberIds[acc]] == s.memberProfiles[s.memberIds[acc]].(profInfo := info)
            && (forall i :: i in s.memberProfiles && i != s.memberIds[acc] ==> t.memberProfiles[i] == s.memberProfiles[i])
  {
  }

  /** A profile-info update keeps the registry invariant. */
  lemma UpdateMemberProfileInfoPreservesValid(
    s: MemberStore, privileged: bool, acc: AccountId, info: Option<seq<MemberProfileInfo>>)
    requires s.Valid()
    ensures UpdateMemberProfileInfo(s, privileged, acc, info).post.Valid()
  {
    var r := UpdateMemberProfileInfo(s, privileged, acc, info);
    if r.outcome == Pass {
      CheckInfosCorrect(info, MemberInfoLimits);
    }
  }

  /** A profile-info update never changes what the role gate answers. */
  lemma UpdateMemberProfileInfoKeepsRoles(
    s: MemberStore, privileged: bool, acc: AccountId, info: Option<seq<MemberProfileInfo>>,
    who: AccountId, role: MemberRole)
    ensures HasRole(UpdateMemberProfileInfo(s, privileged, acc, info).post, who, role) == HasRole(s, who, role)
  {
  }

  /** A role update writes the status and the role list of the resolved
      profile and changes nothing else. */
  lemma UpdateMemberRoleEffect(
    s: MemberStore, privileged: bool, acc: AccountId, roles: Option<seq<MemberRole>>)
    requires UpdateMemberRole(s, privileged, acc, roles).outcome == Pass
    ensures var t := UpdateMemberRole(s, privileged, acc, roles).post;
            var p := t.memberProfiles[s.memberIds[acc]];
            && t.memberIds == s.memberIds
            && t.memberProfiles.Keys == s.memberProfiles.Keys
            && p.role == roles
            && p.memberStatus == Some(if roles.Some? then Active else Suspended)
            && p.(memberStatus := s.memberProfiles[s.memberIds[acc]].memberStatus,
                  role := s.memberProfiles[s.memberIds[acc]].role) == s.memberProfiles[s.memberIds[acc]]
            && (forall i :: i in s.memberProfiles && i != s.memberIds[acc] ==> t.memberProfiles[i] == s.memberProfiles[i])
  {
  }

  /** After a successful role update the role gate admits the member for
      exactly the listed roles; after a `None` update it admits it for none. */
  lemma UpdateMemberRoleThenHasRole(
    s: MemberStore, privileged: bool, acc: AccountId, roles: Option<seq<MemberRole>>, role: MemberRole)
    requires UpdateMemberRole(s, privileged, acc, roles).outcome == Pass
    ensures HasRole(UpdateMemberRole(s, privileged, acc, roles).post, acc, role) == Pass
            <==> roles.Some? && role in roles.value
    ensures roles.None? ==> HasRole(UpdateMemberRole(s, privileged, acc, roles).post, acc, role) == Fail(MemberRoleInvalid)
  {
  }

  /** A role update keeps the registry invariant. */
  lemma UpdateMemberRolePreservesValid(
    s: MemberStore, privileged: bool, acc: AccountId, roles: Option<seq<MemberRole>>)
    requires s.Valid()
    ensures UpdateMemberRole(s, privileged, acc, roles).post.Valid()
  {
  }

  /** In a valid registry the role gate never reports a missing profile:
      every mapped account resolves. */
  lemma ValidRegistryResolves(s: MemberStore, acc: AccountId, role: MemberRole)
    requires s.Valid()
    ensures HasRole(s, acc, role) != Fail(UnknownMemberProfile)
    ensures acc in s.memberIds ==> ResolveMember(s, acc).Ok?
  {
  }

  /** A second admission with the same account or the same membership id is
      refused, whatever the other arguments. */
  lemma RegisterMemberTwiceFails(
    s: MemberStore, minimumDeposit: Balance, privileged: bool,
    acc: AccountId, id: SocietyMemberShipId, info: Option<seq<MemberProfileInfo>>,
    depositValue: Balance, freeBalance: Balance, now: Moment,
    acc2: AccountId, id2: SocietyMemberShipId, info2: Option<seq<MemberProfileInfo>>,
    depositValue2: Balance, freeBalance2: Balance, now2: Moment)
    requires RegisterMember(s, minimumDeposit, privileged, acc, id, info, depositValue, freeBalance, now).outcome == Pass
    requires acc2 == acc || id2 == id
    ensures var t := RegisterMember(s, minimumDeposit, privileged, acc, id, info, depositValue, freeBalance, now).post;
            RegisterMember(t, minimumDeposit, privileged, acc2, id2, info2, depositValue2, freeBalance2, now2).outcome.Fail?
  {
  }
}

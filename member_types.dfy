/** The member registry's record types: the profile, its status and role
    tags, and the builder that `register_member` uses to make a profile. */
module MemberTypes {
  import opened Base
  import opened BoundedInfo

  const SocietyMembershipIdMaxLength: nat := 36
  const MemberProfileInfoNameMaxLength: nat := 10
  const MemberProfileInfoValueMaxLength: nat := 20
  const MemberProfileMaxInfo: nat := 5

  /** The bounds `validate_member_profile_info` applies. */
  const MemberInfoLimits: Limits :=
    Limits(MemberProfileMaxInfo, MemberProfileInfoNameMaxLength, MemberProfileInfoValueMaxLength)

  type SocietyMemberShipId = Bytes
  type MemberProfileInfo = InfoEntry

  datatype MemberStatus = Active | Suspended | Terminated

  datatype MemberRole = CommunityHead | CommunityLeader | AssetOwner | AssetKeeper | Insurer | HealthOfficer

  datatype MemberProfile = MemberProfile(
    memberAcc: AccountId,
    societyMembershipId: SocietyMemberShipId,
    profInfo: Option<seq<MemberProfileInfo>>,
    joinedDate: Moment,
    memberStatus: Option<MemberStatus>,
    role: Option<seq<MemberRole>>,
    karma: nat,
    deposit: Balance)

  /** `MemberProfileBuilder`: each `Update*` takes the builder by value and
      returns it with one field replaced. */
  datatype MemberProfileBuilder = MemberProfileBuilder(
    memberAcc: AccountId,
    societyMembershipId: SocietyMemberShipId,
    profInfo: Option<seq<MemberProfileInfo>>,
    joinedDate: Moment,
    deposit: Balance)
  {
    function UpdateMemberAcc(acc: AccountId): (b: MemberProfileBuilder)
      ensures b.memberAcc == acc
      ensures b.(memberAcc := memberAcc) == this
    {
      this.(memberAcc := acc)
    }

    function UpdateSocietyMembershipId(id: SocietyMemberShipId): (b: MemberProfileBuilder)
      ensures b.societyMembershipId == id
      ensures b.(societyMembershipId := societyMembershipId) == this
    {
      this.(societyMembershipId := id)
    }

    function UpdateMemberProfileInfo(info: Option<seq<MemberProfileInfo>>): (b: MemberProfileBuilder)
      ensures b.profInfo == info
      ensures b.(profInfo := profInfo) == this
    {
      this.(profInfo := info)
    }

    function UpdateJoinedDate(date: Moment): (b: MemberProfileBuilder)
      ensures b.joinedDate == date
      ensures b.(joinedDate := joinedDate) == this
    {
      this.(joinedDate := date)
    }

    function UpdateDeposit(amount: Balance): (b: MemberProfileBuilder)
      ensures b.deposit == amount
      ensures b.(deposit := deposit) == this
    {
      this.(deposit := amount)
    }

    /** A built profile starts with no status, no roles and zero karma;
        everything else comes from the builder. */
    function Build(): (p: MemberProfile)
      ensures p.memberStatus.None? && p.role.None? && p.karma == 0
      ensures p.memberAcc == memberAcc && p.societyMembershipId == societyMembershipId
      ensures p.profInfo == profInfo && p.joinedDate == joinedDate && p.deposit == deposit
    {
      MemberProfile(memberAcc, societyMembershipId, profInfo, joinedDate, None, None, 0, deposit)
    }
  }

  /** `MemberProfileBuilder::default()`. */
  const DefaultMemberProfileBuilder: MemberProfileBuilder :=
    MemberProfileBuilder(0, [], None, 0, 0)
}

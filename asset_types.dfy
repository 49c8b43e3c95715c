/** The asset registry's record types: the asset profile with its embedded
    insurance, the staged insurance reclaim and health-check records, their
    status enums, the builders the dispatchables use, and the bounds. */
module AssetTypes {
  import opened Base
  import opened BoundedInfo

  const AssetIdMaxLength: nat := 36
  const AssetInfoNameMaxLength: nat := 20
  const AssetInfoValueMaxLength: nat := 40
  const AssetProfileMaxInfo: nat := 10
  const AssetInsuranceReclaimMaxInfo: nat := 10
  const AssetHealthCheckMaxInfo: nat := 10

  /** The bounds of `validate_asset_profile_info`. */
  const AssetInfoLimits: Limits :=
    Limits(AssetProfileMaxInfo, AssetInfoNameMaxLength, AssetInfoValueMaxLength)
  /** The bounds of `validate_asset_insurance_reclaim_info`. */
  const ReclaimInfoLimits: Limits :=
    Limits(AssetInsuranceReclaimMaxInfo, AssetInfoNameMaxLength, AssetInfoValueMaxLength)
  /** The bounds of `validate_asset_healthcheck_info`. */
  const HealthCheckInfoLimits: Limits :=
    Limits(AssetHealthCheckMaxInfo, AssetInfoNameMaxLength, AssetInfoValueMaxLength)

  type AssetId = Bytes
  type AssetProfileInfo = InfoEntry
  type AssetInsuranceReClaimInfo = InfoEntry
  type AssetHealthCheckRecInfo = InfoEntry

  datatype AssetStatus = NewRegi | InFarm | ForSale | InTransfer | Expired

  datatype AssetInsuranceStatus =
    NewApplication | PremiumQuoted | PremiumPaid | Active | ReClaimInProgress | ReClaimDone | Expired

  datatype AssetInsurance = AssetInsurance(
    assetId: AssetId,
    status: AssetInsuranceStatus,
    startDate: Moment,
    expiryDate: Moment,
    quotedPremium: Balance,
    premiumPaidDate: Moment,
    coverage: Balance)

  datatype AssetProfile = AssetProfile(
    assetId: AssetId,
    assetInfo: Option<seq<AssetProfileInfo>>,
    joinedDate: Moment,
    assetStatus: AssetStatus,
    assetOwners: Option<seq<AccountId>>,
    assetKeepers: Option<seq<AccountId>>,
    assetInsurance: Option<AssetInsurance>)

  /** `AssetProfileBuilder`. */
  datatype AssetProfileBuilder = AssetProfileBuilder(
    assetId: AssetId,
    assetInfo: Option<seq<AssetProfileInfo>>,
    joinedDate: Moment,
    assetOwners: Option<seq<AccountId>>,
    assetKeepers: Option<seq<AccountId>>,
    assetInsurance: Option<AssetInsurance>)
  {
    function UpdateAssetId(id: AssetId): (b: AssetProfileBuilder)
      ensures b.assetId == id && b.(assetId := assetId) == this
    {
      this.(assetId := id)
    }

    function UpdateAssetProfileInfo(info: Option<seq<AssetProfileInfo>>): (b: AssetProfileBuilder)
      ensures b.assetInfo == info && b.(assetInfo := assetInfo) == this
    {
      this.(assetInfo := info)
    }

    function UpdateJoinedDate(date: Moment): (b: AssetProfileBuilder)
      ensures b.joinedDate == date && b.(joinedDate := joinedDate) == this
    {
      this.(joinedDate := date)
    }

    /** The owner list becomes the one given account. */
    function UpdateOwner(owner: AccountId): (b: AssetProfileBuilder)
      ensures b.assetOwners == Some([owner]) && b.(assetOwners := assetOwners) == this
    {
      this.(assetOwners := Some([owner]))
    }

    /** The keeper list becomes the one given account. */
    function UpdateKeeper(keeper: AccountId): (b: AssetProfileBuilder)
      ensures b.assetKeepers == Some([keeper]) && b.(assetKeepers := assetKeepers) == this
    {
      this.(assetKeepers := Some([keeper]))
    }

    /** A built profile is always a new registration. */
    function Build(): (p: AssetProfile)
      ensures p.assetStatus == NewRegi
      ensures p.assetId == assetId && p.assetInfo == assetInfo && p.joinedDate == joinedDate
      ensures p.assetOwners == assetOwners && p.assetKeepers == assetKeepers
      ensures p.assetInsurance == assetInsurance
    {
      AssetProfile(assetId, assetInfo, joinedDate, NewRegi, assetOwners, assetKeepers, assetInsurance)
    }
  }

  /** `AssetProfileBuilder::default()`. */
  const DefaultAssetProfileBuilder: AssetProfileBuilder :=
    AssetProfileBuilder([], None, 0, None, None, None)

  /** `AssetInsuranceBuilder`. */
  datatype AssetInsuranceBuilder = AssetInsuranceBuilder(
    assetId: AssetId,
    startDate: Moment,
    expiryDate: Moment,
    quotedPremium: Balance,
    premiumPaidDate: Moment,
    coverage: Balance)
  {
    function UpdateAssetId(id: AssetId): (b: AssetInsuranceBuilder)
      ensures b.assetId == id && b.(assetId := assetId) == this
    {
      this.(assetId := id)
    }

    /** A built insurance is always a new application. */
    function Build(): (i: AssetInsurance)
      ensures i.status == NewApplication
      ensures i.assetId == assetId && i.startDate == startDate && i.expiryDate == expiryDate
      ensures i.quotedPremium == quotedPremium && i.premiumPaidDate == premiumPaidDate
      ensures i.coverage == coverage
    {
      AssetInsurance(assetId, NewApplication, startDate, expiryDate, quotedPremium, premiumPaidDate, coverage)
    }
  }

  /** `AssetInsuranceBuilder::default()`: every date and amount zero. */
  const DefaultAssetInsuranceBuilder: AssetInsuranceBuilder :=
    AssetInsuranceBuilder([], 0, 0, 0, 0, 0)

  datatype AssetInsuranceReClaimStatus =
    NewReclaim | CommunityApproved | CommunityDisApproved | InsurerApproved | InsurerDisApproved | CoveragePaid

  datatype AssetInsuranceReClaim = AssetInsuranceReClaim(
    assetId: AssetId,
    appliedDate: Moment,
    closedDate: Moment,
    status: AssetInsuranceReClaimStatus,
    ownerNote: Option<seq<AssetInsuranceReClaimInfo>>,
    communityNote: Option<seq<AssetInsuranceReClaimInfo>>,
    insurerNote: Option<seq<AssetInsuranceReClaimInfo>>)

  /** `AssetInsuranceReClaimBuilder`. */
  datatype AssetInsuranceReClaimBuilder = AssetInsuranceReClaimBuilder(
    assetId: AssetId,
    appliedDate: Moment,
    closedDate: Moment,
    ownerNote: Option<seq<AssetInsuranceReClaimInfo>>)
  {
    function UpdateAssetId(id: AssetId): (b: AssetInsuranceReClaimBuilder)
      ensures b.assetId == id && b.(assetId := assetId) == this
    {
      this.(assetId := id)
    }

    function UpdateOwnerNote(note: Option<seq<AssetInsuranceReClaimInfo>>): (b: AssetInsuranceReClaimBuilder)
      ensures b.ownerNote == note && b.(ownerNote := ownerNote) == this
    {
      this.(ownerNote := note)
    }

    /** A built reclaim is new, carries the owner's note and no community or
        insurer note. */
    function Build(): (c: AssetInsuranceReClaim)
      ensures c.status == NewReclaim && c.communityNote.None? && c.insurerNote.None?
      ensures c.assetId == assetId && c.ownerNote == ownerNote
      ensures c.appliedDate == appliedDate && c.closedDate == closedDate
    {
      AssetInsuranceReClaim(assetId, appliedDate, closedDate, NewReclaim, ownerNote, None, None)
    }
  }

  /** `AssetInsuranceReClaimBuilder::default()`. */
  const DefaultAssetInsuranceReClaimBuilder: AssetInsuranceReClaimBuilder :=
    AssetInsuranceReClaimBuilder([], 0, 0, None)

  datatype AssetHealthCheckRecStatus = NewReq | TreatmentInProgress | TreatmentDone | CommunityApproved

  datatype AssetHealthCheckRec = AssetHealthCheckRec(
    assetId: AssetId,
    requestDate: Moment,
    closedDate: Moment,
    status: AssetHealthCheckRecStatus,
    ownerNote: Option<seq<AssetHealthCheckRecInfo>>,
    healthOfficerNote: Option<seq<AssetHealthCheckRecInfo>>,
    communityNote: Option<seq<AssetHealthCheckRecInfo>>)

  /** `AssetHealthCheckRecBuilder`. */
  datatype AssetHealthCheckRecBuilder = AssetHealthCheckRecBuilder(
    assetId: AssetId,
    requestDate: Moment,
    closedDate: Moment,
    ownerNote: Option<seq<AssetHealthCheckRecInfo>>)
  {
    function UpdateAssetId(id: AssetId): (b: AssetHealthCheckRecBuilder)
      ensures b.assetId == id && b.(assetId := assetId) == this
    {
      this.(assetId := id)
    }

    function UpdateOwnerNote(note: Option<seq<AssetHealthCheckRecInfo>>): (b: AssetHealthCheckRecBuilder)
      ensures b.ownerNote == note && b.(ownerNote := ownerNote) == this
    {
      this.(ownerNote := note)
    }

    /** A built record is a new request, carries the owner's note and no
        officer or community note. */
    function Build(): (h: AssetHealthCheckRec)
      ensures h.status == NewReq && h.healthOfficerNote.None? && h.communityNote.None?
      ensures h.assetId == assetId && h.ownerNote == ownerNote
      ensures h.requestDate == requestDate && h.closedDate == closedDate
    {
      AssetHealthCheckRec(assetId, requestDate, closedDate, NewReq, ownerNote, None, None)
    }
  }

  /** `AssetHealthCheckRecBuilder::default()`. */
  const DefaultAssetHealthCheckRecBuilder: AssetHealthCheckRecBuilder :=
    AssetHealthCheckRecBuilder([], 0, 0, None)
}

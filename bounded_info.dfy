/** The bounded name/value validator. The source writes it four times
    (member profile info, asset profile info, reclaim notes, health-check
    notes), each time as an early-exit loop over an optional list with its
    own three bounds; this module states it once, parameterised by the
    bounds. */
module BoundedInfo {
  import opened Base

  /** A name/value pair: `MemberProfileInfo`, `AssetProfileInfo`,
      `AssetInsuranceReClaimInfo` and `AssetHealthCheckRecInfo` all have
      this shape. */
  datatype InfoEntry = InfoEntry(name: Bytes, value: Bytes) {
    /** The `info_name()` accessor. */
    function InfoName(): Bytes { name }
    /** The `info_value()` accessor. */
    function InfoValue(): Bytes { value }
  }

  /** The `new(info_name, info_value)` constructor: the accessors give back
      exactly what was passed in. */
  function NewInfo(infoName: Bytes, infoValue: Bytes): (e: InfoEntry)
    ensures e.InfoName() == infoName && e.InfoValue() == infoValue
  {
    InfoEntry(infoName, infoValue)
  }

  /** The three bounds of one use of the validator. */
  datatype Limits = Limits(maxCount: nat, maxNameLength: nat, maxValueLength: nat)

  /** Which bound failed first. */
  datatype InfoViolation = TooManyInfos | InvalidInfoName | InvalidInfoValue

  predicate EntryWithin(e: InfoEntry, lim: Limits) {
    |e.InfoName()| <= lim.maxNameLength && |e.InfoValue()| <= lim.maxValueLength
  }

  /** Reference definition: the list respects all three bounds. */
  predicate WithinLimits(entries: seq<InfoEntry>, lim: Limits) {
    |entries| <= lim.maxCount && forall i :: 0 <= i < |entries| ==> EntryWithin(entries[i], lim)
  }

  /** The entry loop: the first entry with a too-long name or value decides,
      and the name is checked before the value. */
  function CheckEntries(entries: seq<InfoEntry>, lim: Limits): Outcome<InfoViolation>
    decreases |entries|
  {
    if |entries| == 0 then Pass
    else if |entries[0].InfoName()| > lim.maxNameLength then Fail(InvalidInfoName)
    else if |entries[0].InfoValue()| > lim.maxValueLength then Fail(InvalidInfoValue)
    else CheckEntries(entries[1..], lim)
  }

  /** The whole validator: an absent list passes, the count is checked
      before any entry. */
  function CheckInfos(info: Option<seq<InfoEntry>>, lim: Limits): Outcome<InfoViolation> {
    match info
    case None => Pass
    case Some(entries) =>
      if |entries| > lim.maxCount then Fail(TooManyInfos) else CheckEntries(entries, lim)
  }

  /** The entry loop passes exactly when every entry is within its bounds. */
  lemma {:induction false} CheckEntriesPassIff(entries: seq<InfoEntry>, lim: Limits)
    ensures CheckEntries(entries, lim) == Pass
            <==> forall i :: 0 <= i < |entries| ==> EntryWithin(entries[i], lim)
    decreases |entries|
  {
    if |entries| > 0 {
      CheckEntriesPassIff(entries[1..], lim);
      assert forall i :: 1 <= i < |entries| ==> entries[i] == entries[1..][i - 1];
    }
  }

  /** The entry loop reports the first offending entry: if every entry
      before `k` is fine and entry `k` is not, the error is about entry `k`,
      its name if the name is too long, otherwise its value. */
  lemma {:induction false} CheckEntriesFirstFailure(entries: seq<InfoEntry>, lim: Limits, k: nat)
    requires k < |entries|
    requires forall j :: 0 <= j < k ==> EntryWithin(entries[j], lim)
    requires !EntryWithin(entries[k], lim)
    ensures CheckEntries(entries, lim)
            == if |entries[k].InfoName()| > lim.maxNameLength then Fail(InvalidInfoName)
               else Fail(InvalidInfoValue)
    decreases k
  {
    if k > 0 {
      assert EntryWithin(entries[0], lim);
      CheckEntriesFirstFailure(entries[1..], lim, k - 1);
    }
  }

  /** Any failure of the entry loop is one of the two per-entry errors. */
  lemma {:induction false} CheckEntriesNeverTooMany(entries: seq<InfoEntry>, lim: Limits)
    ensures CheckEntries(entries, lim) != Fail(TooManyInfos)
    decreases |entries|
  {
    if |entries| > 0 {
      CheckEntriesNeverTooMany(entries[1..], lim);
    }
  }

  /** The validator agrees with the reference definition, in both
      directions, and `TooManyInfos` is reported exactly when the count is
      over its bound. */
  lemma CheckInfosCorrect(info: Option<seq<InfoEntry>>, lim: Limits)
    ensures CheckInfos(info, lim) == Pass <==> (info.None? || WithinLimits(info.value, lim))
    ensures CheckInfos(info, lim) == Fail(TooManyInfos)
            <==> (info.Some? && |info.value| > lim.maxCount)
  {
    if info.Some? {
      CheckEntriesPassIff(info.value, lim);
      CheckEntriesNeverTooMany(info.value, lim);
    }
  }

  /** The boundary cases: a list of exactly `maxCount` good entries passes,
      one more entry is refused as too many whatever it holds. */
  lemma CheckInfosBoundary(entries: seq<InfoEntry>, extra: InfoEntry, lim: Limits)
    requires |entries| == lim.maxCount
    requires forall i :: 0 <= i < |entries| ==> EntryWithin(entries[i], lim)
    ensures CheckInfos(Some(entries), lim) == Pass
    ensures CheckInfos(Some(entries + [extra]), lim) == Fail(TooManyInfos)
  {
    CheckEntriesPassIff(entries, lim);
  }

  /** The source's loop: count first, then each entry in order, name before
      value, returning at the first failure. */
  method ValidateInfos(info: Option<seq<InfoEntry>>, lim: Limits) returns (r: Outcome<InfoViolation>)
    ensures r == CheckInfos(info, lim)
  {
    if info.None? {
      return Pass;
    }
    var entries := info.value;
    if |entries| > lim.maxCount {
      return Fail(TooManyInfos);
    }
    var i := 0;
    while i < |entries|
      invariant 0 <= i <= |entries|
      invariant CheckEntries(entries, lim) == CheckEntries(entries[i..], lim)
    {
      var entry := entries[i];
      if |entry.InfoName()| > lim.maxNameLength {
        return Fail(InvalidInfoName);
      }
      if |entry.InfoValue()| > lim.maxValueLength {
        return Fail(InvalidInfoValue);
      }
      assert entries[i..][1..] == entries[i + 1..];
      i := i + 1;
    }
    return Pass;
  }

  /** Which way an identifier failed its format check. */
  datatype IdViolation = IdEmpty | IdTooLong

  /** `validate_membership_id` / `validate_asset_id`: emptiness is checked
      before length. */
  function CheckId(id: Bytes, maxLength: nat): (r: Outcome<IdViolation>)
    ensures r == Pass <==> 0 < |id| <= maxLength
    ensures r == Fail(IdEmpty) <==> |id| == 0
    ensures r == Fail(IdTooLong) <==> |id| > maxLength && |id| > 0
  {
    if |id| == 0 then Fail(IdEmpty)
    else if |id| > maxLength then Fail(IdTooLong)
    else Pass
  }
}

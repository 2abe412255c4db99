/**
 * The plugin's conversion of a listing, as the game client reports it, into the record it
 * uploads (`UploadableListing` and `UploadableSlot`). World ids are cast to `ushort`, which
 * keeps their low 16 bits; a slot's accepted job flags are folded into one mask with `|`;
 * everything else is copied. The server reads the upload back into its own listing type,
 * whose world fields are `u8`: `ServerReading` is that reading, and `ReadBack` states what
 * survives the trip.
 */
module Uploadable {
  import opened Wrappers
  import Listing
  import Stats

  type U8 = Listing.U8
  type U16 = Listing.U16
  type U32 = x: nat | x < 0x1_0000_0000

  /** A slot as the client reports it: the individual job flags it accepts. */
  datatype ClientSlot = ClientSlot(accepting: seq<bv32>)

  /**
   * The client's listing, the fields the constructor reads. The name and description are
   * already encoded to bytes, and the world fields hold the worlds' sheet row ids.
   */
  datatype ClientListing = ClientListing(
    id: U32,
    contentIdLower: U32,
    name: seq<bv8>,
    description: seq<bv8>,
    worldRowId: U32,
    homeWorldRowId: U32,
    currentWorldRowId: U32,
    category: U32,
    rawDuty: U16,
    dutyType: U8,
    beginnersWelcome: bool,
    secondsRemaining: U16,
    minimumItemLevel: U16,
    parties: U8,
    slotsAvailable: U8,
    lastPatchHotfixTimestamp: U32,
    objective: bv32,
    conditions: bv32,
    dutyFinderSettings: bv32,
    lootRules: bv32,
    searchArea: bv32,
    slots: seq<ClientSlot>,
    rawJobsPresent: seq<U8>)

  datatype UploadableSlot = UploadableSlot(accepting: bv32)

  /** The uploaded record. */
  datatype UploadableListing = UploadableListing(
    id: U32,
    contentIdLower: U32,
    name: seq<bv8>,
    description: seq<bv8>,
    createdWorld: U16,
    homeWorld: U16,
    currentWorld: U16,
    category: U32,
    duty: U16,
    dutyType: U8,
    beginnersWelcome: bool,
    secondsRemaining: U16,
    minItemLevel: U16,
    numParties: U8,
    slotsAvailable: U8,
    lastServerRestart: U32,
    objective: bv32,
    conditions: bv32,
    dutyFinderSettings: bv32,
    lootRules: bv32,
    searchArea: bv32,
    slots: seq<UploadableSlot>,
    jobsPresent: seq<U8>)

  // ---------------------------------------------------------------------------------------
  // UploadableSlot
  // ---------------------------------------------------------------------------------------

  function Or(a: bv32, b: bv32): bv32 {
    a | b
  }

  /** Every bit of `a` is set in `b`. */
  predicate Within(a: bv32, b: bv32) {
    a & b == a
  }

  /** The `Aggregate` of the accepted flags with `|`, starting from 0. */
  function OrFold(flags: seq<bv32>): bv32 {
    if |flags| == 0 then 0 else Or(OrFold(flags[..|flags| - 1]), flags[|flags| - 1])
  }

  lemma OrKeeps(a: bv32, b: bv32, c: bv32)
    requires Within(a, b)
    ensures Within(a, Or(b, c)) && Within(c, Or(b, c))
  {
  }

  lemma OrLeast(a: bv32, b: bv32, m: bv32)
    requires Within(a, m) && Within(b, m)
    ensures Within(Or(a, b), m)
  {
  }

  /** Every accepted flag's bits are in the folded mask. */
  lemma {:induction false} OrFoldCovers(flags: seq<bv32>, i: nat)
    requires i < |flags|
    ensures Within(flags[i], OrFold(flags))
  {
    var init, last := flags[..|flags| - 1], flags[|flags| - 1];
    if i < |init| {
      OrFoldCovers(init, i);
      assert init[i] == flags[i];
      OrKeeps(flags[i], OrFold(init), last);
    } else {
      OrKeeps(0, OrFold(init), last);
    }
  }

  /** The folded mask has no bit beyond those of the accepted flags: any mask covering them covers it. */
  lemma {:induction false} OrFoldLeast(flags: seq<bv32>, m: bv32)
    requires forall i :: 0 <= i < |flags| ==> Within(flags[i], m)
    ensures Within(OrFold(flags), m)
  {
    if |flags| == 0 {
      assert Within(0, m);
    } else {
      var init := flags[..|flags| - 1];
      assert forall i :: 0 <= i < |init| ==> init[i] == flags[i];
      OrFoldLeast(init, m);
      OrLeast(OrFold(init), flags[|flags| - 1], m);
    }
  }

  /** A slot accepting nothing uploads 0, and one accepting a single flag uploads that flag. */
  lemma OrFoldSmall(f: bv32)
    ensures OrFold([]) == 0
    ensures OrFold([f]) == f
  {
    assert [f][..0] == [];
  }

  /** The constructor of `UploadableSlot`. */
  function SlotOf(slot: ClientSlot): UploadableSlot {
    UploadableSlot(OrFold(slot.accepting))
  }

  // ---------------------------------------------------------------------------------------
  // UploadableListing
  // ---------------------------------------------------------------------------------------

  /** The unchecked `(ushort)` cast of a row id: its low 16 bits. */
  function UShort(rowId: U32): (r: U16)
    ensures rowId < 0x1_0000 ==> r == rowId
    ensures r == rowId || rowId >= 0x1_0000
    ensures (rowId - r) % 0x1_0000 == 0
  {
    rowId % 0x1_0000
  }

  /** The constructor: every field copied, the worlds cast, the slots folded one by one. */
  function FromClient(l: ClientListing): (u: UploadableListing)
    ensures u.createdWorld == UShort(l.worldRowId) && u.homeWorld == UShort(l.homeWorldRowId)
    ensures u.currentWorld == UShort(l.currentWorldRowId)
    ensures u.id == l.id && u.contentIdLower == l.contentIdLower
    ensures u.name == l.name && u.description == l.description
    ensures u.category == l.category && u.duty == l.rawDuty && u.dutyType == l.dutyType
    ensures u.beginnersWelcome == l.beginnersWelcome && u.secondsRemaining == l.secondsRemaining
    ensures u.minItemLevel == l.minimumItemLevel && u.numParties == l.parties
    ensures u.slotsAvailable == l.slotsAvailable && u.lastServerRestart == l.lastPatchHotfixTimestamp
    ensures u.objective == l.objective && u.conditions == l.conditions
    ensures u.dutyFinderSettings == l.dutyFinderSettings && u.lootRules == l.lootRules && u.searchArea == l.searchArea
    ensures |u.slots| == |l.slots|
    ensures forall i :: 0 <= i < |l.slots| ==> u.slots[i] == SlotOf(l.slots[i])
    ensures u.jobsPresent == l.rawJobsPresent
  {
    UploadableListing(
      id := l.id,
      contentIdLower := l.contentIdLower,
      name := l.name,
      description := l.description,
      createdWorld := UShort(l.worldRowId),
      homeWorld := UShort(l.homeWorldRowId),
      currentWorld := UShort(l.currentWorldRowId),
      category := l.category,
      duty := l.rawDuty,
      dutyType := l.dutyType,
      beginnersWelcome := l.beginnersWelcome,
      secondsRemaining := l.secondsRemaining,
      minItemLevel := l.minimumItemLevel,
      numParties := l.parties,
      slotsAvailable := l.slotsAvailable,
      lastServerRestart := l.lastPatchHotfixTimestamp,
      objective := l.objective,
      conditions := l.conditions,
      dutyFinderSettings := l.dutyFinderSettings,
      lootRules := l.lootRules,
      searchArea := l.searchArea,
      slots := seq(|l.slots|, i requires 0 <= i < |l.slots| => SlotOf(l.slots[i])),
      jobsPresent := l.rawJobsPresent)
  }

  // ---------------------------------------------------------------------------------------
  // The server's reading of an upload
  // ---------------------------------------------------------------------------------------

  /**
   * The server's listing type read from an upload: `None` when a world id does not fit its
   * `u8` fields or the category or duty type is not one of its enum values.
   */
  function ServerReading(u: UploadableListing): (r: Option<Listing.PartyFinderListing>)
    ensures r.Some? <==>
      u.createdWorld < 0x100 && u.homeWorld < 0x100 && u.currentWorld < 0x100 &&
      Stats.DutyCategoryFromU32(u.category).Some? && Stats.DutyTypeFromU8(u.dutyType).Some?
  {
    var category, dutyType := Stats.DutyCategoryFromU32(u.category), Stats.DutyTypeFromU8(u.dutyType);
    if u.createdWorld < 0x100 && u.homeWorld < 0x100 && u.currentWorld < 0x100 && category.Some? && dutyType.Some? then
      Some(Listing.PartyFinderListing(
        createdWorld := u.createdWorld,
        homeWorld := u.homeWorld,
        currentWorld := u.currentWorld,
        category := category.value,
        duty := u.duty,
        dutyType := dutyType.value,
        slotsAvailable := u.slotsAvailable,
        objective := u.objective,
        conditions := u.conditions,
        searchArea := u.searchArea,
        slots := seq(|u.slots|, i requires 0 <= i < |u.slots| => Listing.PartyFinderSlot(u.slots[i].accepting)),
        jobsPresent := u.jobsPresent))
    else None
  }

  /**
   * What survives the upload: the server reads a listing exactly when its world row ids are
   * below 256 and its category and duty type are known, and then sees the client's worlds,
   * duty, flags, job ids, and one slot per client slot holding that slot's folded flags.
   */
  lemma ReadBack(l: ClientListing)
    ensures ServerReading(FromClient(l)).Some? <==>
      UShort(l.worldRowId) < 0x100 && UShort(l.homeWorldRowId) < 0x100 && UShort(l.currentWorldRowId) < 0x100 &&
      Stats.DutyCategoryFromU32(l.category).Some? && Stats.DutyTypeFromU8(l.dutyType).Some?
    ensures ServerReading(FromClient(l)).Some? ==>
      var s := ServerReading(FromClient(l)).value;
      s.createdWorld == UShort(l.worldRowId) && s.homeWorld == UShort(l.homeWorldRowId) &&
      s.currentWorld == UShort(l.currentWorldRowId) &&
      Stats.DutyCategoryCode(s.category) == l.category && Stats.DutyTypeCode(s.dutyType) == l.dutyType &&
      s.duty == l.rawDuty && s.slotsAvailable == l.slotsAvailable &&
      s.objective == l.objective && s.conditions == l.conditions && s.searchArea == l.searchArea &&
      s.jobsPresent == l.rawJobsPresent &&
      |s.slots| == |l.slots| &&
      forall i :: 0 <= i < |l.slots| ==> s.slots[i].accepting == OrFold(l.slots[i].accepting)
  {
  }

  /**
   * A world numbered 400 (the row ids run past 255) is uploaded as 400 and cannot be read
   * into the server's `u8` world field, while a world below 256 reaches it unchanged.
   */
  lemma WideWorldRefused(l: ClientListing)
    ensures l.worldRowId == 400 ==> FromClient(l).createdWorld == 400 && ServerReading(FromClient(l)).None?
    ensures l.worldRowId < 0x100 && ServerReading(FromClient(l)).Some? ==>
      ServerReading(FromClient(l)).value.createdWorld == l.worldRowId
  {
  }

  /** A row id of 65536 or more wraps: 65537 is uploaded as world 1. */
  lemma RowIdWraps(l: ClientListing)
    requires l.homeWorldRowId == 0x1_0001
    ensures FromClient(l).homeWorld == 1
  {
  }
}

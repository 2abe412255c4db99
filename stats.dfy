/**
 * The helpers behind the statistics page (`server/src/stats.rs`): the alias table built from
 * the aggregation's alias records, the listing count, and the display names of players,
 * duties, host worlds and week days. The aggregation itself and the templates are not part
 * of this model; the `WORLDS` table is a parameter, and so is the duty-naming function the
 * statistics call, which takes the decoded duty type, category and duty id.
 */
module Stats {
  import opened Wrappers
  import Listing

  type U8 = x: nat | x < 0x100
  type U16 = x: nat | x < 0x1_0000
  type U32 = x: nat | x < 0x1_0000_0000

  /** A player alias: the text of the name and the home world id. */
  datatype Alias = Alias(name: string, homeWorld: U32)

  /** One alias record of the aggregation: a content id and its alias. */
  datatype AliasInfo = AliasInfo(contentId: U32, alias: Alias)

  /** The parts of `Statistics` the helpers read: the listing counts and the alias table. */
  datatype Statistics = Statistics(count: seq<nat>, aliases: map<U32, Alias>)

  /** A duty's aggregation key (duty type code, category code, duty id) and its count. */
  datatype DutyInfo = DutyInfo(info: (U8, U32, U16), count: nat)

  /** A host world's listing count and its top hosts' counts. */
  datatype HostInfo = HostInfo(createdWorld: U32, count: nat, contentCounts: seq<nat>)

  /** The message shown for whatever cannot be named. */
  const Unknown := "<unknown>"

  // ---------------------------------------------------------------------------------------
  // alias_de
  // ---------------------------------------------------------------------------------------

  /** `alias_de`: the records collected into a map by content id; a later record replaces an earlier one. */
  function AliasMap(infos: seq<AliasInfo>): (m: map<U32, Alias>)
    ensures forall i :: 0 <= i < |infos| ==> infos[i].contentId in m
    ensures forall id :: id in m ==> exists i :: 0 <= i < |infos| && infos[i].contentId == id
  {
    if |infos| == 0 then map[]
    else
      var last := infos[|infos| - 1];
      var m := AliasMap(infos[..|infos| - 1]);
      assert forall i :: 0 <= i < |infos| - 1 ==> infos[..|infos| - 1][i] == infos[i];
      m[last.contentId := last.alias]
  }

  /** The alias kept for a content id is that of its last record. */
  lemma {:induction false} AliasMapLastWins(infos: seq<AliasInfo>, k: nat)
    requires k < |infos|
    requires forall j :: k < j < |infos| ==> infos[j].contentId != infos[k].contentId
    ensures AliasMap(infos)[infos[k].contentId] == infos[k].alias
  {
    if k < |infos| - 1 {
      var prefix := infos[..|infos| - 1];
      assert forall j :: k < j < |prefix| ==> prefix[j] == infos[j];
      AliasMapLastWins(prefix, k);
    }
  }

  // ---------------------------------------------------------------------------------------
  // Statistics
  // ---------------------------------------------------------------------------------------

  /**
   * `num_listings`: the first count record's value, or 0 when there is none. The contract
   * only restates the accessor; the statistics' promises are in `PlayerNameFromRecords`
   * and the lemmas beside it.
   */
  function NumListings(s: Statistics): (r: nat)
    ensures |s.count| == 0 ==> r == 0
    ensures |s.count| > 0 ==> r == s.count[0]
  {
    if |s.count| == 0 then 0 else s.count[0]
  }

  /** A world's name from `WORLDS`, or `<unknown>`. */
  function WorldOrUnknown(world: U32, worlds: map<nat, string>): (r: string)
    ensures world in worlds ==> r == worlds[world]
    ensures world !in worlds ==> r == Unknown
    ensures r == Unknown || r in worlds.Values
  {
    if world in worlds then worlds[world] else Unknown
  }

  /** `player_name`: `<unknown>` for an unknown content id, else `{name} @ {world}`. */
  function PlayerName(s: Statistics, cid: U32, worlds: map<nat, string>): (r: string)
    ensures cid !in s.aliases ==> r == Unknown
    ensures cid in s.aliases ==> r == s.aliases[cid].name + " @ " + WorldOrUnknown(s.aliases[cid].homeWorld, worlds)
    ensures r == Unknown <==> cid !in s.aliases
  {
    if cid !in s.aliases then Unknown
    else
      var alias := s.aliases[cid];
      var named := alias.name + " @ " + WorldOrUnknown(alias.homeWorld, worlds);
      // a known player's name holds the `@` that `<unknown>` lacks
      assert named[|alias.name| + 1] == '@';
      assert '@' !in Unknown;
      named
  }

  /**
   * Statistics whose alias table was read from a list of records name a content id by its
   * last record, and only an id without any record is unknown.
   */
  lemma PlayerNameFromRecords(infos: seq<AliasInfo>, count: seq<nat>, k: nat, worlds: map<nat, string>)
    requires k < |infos|
    requires forall j :: k < j < |infos| ==> infos[j].contentId != infos[k].contentId
    ensures PlayerName(Statistics(count, AliasMap(infos)), infos[k].contentId, worlds) ==
      infos[k].alias.name + " @ " + WorldOrUnknown(infos[k].alias.homeWorld, worlds)
  {
    AliasMapLastWins(infos, k);
  }

  lemma PlayerNameUnknown(infos: seq<AliasInfo>, count: seq<nat>, cid: U32, worlds: map<nat, string>)
    requires forall j :: 0 <= j < |infos| ==> infos[j].contentId != cid
    ensures PlayerName(Statistics(count, AliasMap(infos)), cid, worlds) == Unknown
  {
  }

  // ---------------------------------------------------------------------------------------
  // Duty names
  // ---------------------------------------------------------------------------------------

  /** The wire code of a duty type (`DutyType::as_u8`): the enum's discriminant. */
  function DutyTypeCode(t: Listing.DutyType): U8 {
    match t
    case Other => 0
    case Roulette => 1
    case Normal => 2
  }

  /**
   * `DutyType::from_u8`: the duty type with that discriminant, if any. Its source is not
   * part of this model; it is taken as the inverse of the `repr(u8)` discriminants.
   */
  function DutyTypeFromU8(b: U8): (r: Option<Listing.DutyType>)
    ensures r.Some? <==> b <= 2
    ensures r.Some? ==> DutyTypeCode(r.value) == b
  {
    if b == 0 then Some(Listing.Other)
    else if b == 1 then Some(Listing.Roulette)
    else if b == 2 then Some(Listing.Normal)
    else None
  }

  lemma DutyTypeRoundTrip(t: Listing.DutyType)
    ensures DutyTypeFromU8(DutyTypeCode(t)) == Some(t)
  {
  }

  /** The wire code of a duty category (`DutyCategory::as_u32`): 0 or a single bit. */
  function DutyCategoryCode(c: Listing.DutyCategory): U32 {
    match c
    case Duty => 0
    case QuestBattles => 1
    case Fates => 2
    case TreasureHunt => 4
    case TheHunt => 8
    case GatheringForays => 16
    case DeepDungeons => 32
    case AdventuringForays => 64
  }

  /**
   * `DutyCategory::from_u32`: the category with that discriminant, if any. Its source is not
   * part of this model; it is taken as the inverse of the `repr(u32)` discriminants.
   */
  function DutyCategoryFromU32(x: U32): (r: Option<Listing.DutyCategory>)
    ensures r.Some? <==> x in {0, 1, 2, 4, 8, 16, 32, 64}
    ensures r.Some? ==> DutyCategoryCode(r.value) == x
  {
    if x == 0 then Some(Listing.DutyCategory.Duty)
    else if x == 1 then Some(Listing.DutyCategory.QuestBattles)
    else if x == 2 then Some(Listing.DutyCategory.Fates)
    else if x == 4 then Some(Listing.DutyCategory.TreasureHunt)
    else if x == 8 then Some(Listing.DutyCategory.TheHunt)
    else if x == 16 then Some(Listing.DutyCategory.GatheringForays)
    else if x == 32 then Some(Listing.DutyCategory.DeepDungeons)
    else if x == 64 then Some(Listing.DutyCategory.AdventuringForays)
    else None
  }

  lemma DutyCategoryRoundTrip(c: Listing.DutyCategory)
    ensures DutyCategoryFromU32(DutyCategoryCode(c)) == Some(c)
  {
  }

  /** `DutyInfo::name`: `<unknown>` unless both codes decode, else the duty-naming function's text. */
  function DutyInfoName(d: DutyInfo, dutyName: (Listing.DutyType, Listing.DutyCategory, U16) -> string): (r: string)
    ensures DutyTypeFromU8(d.info.0).None? || DutyCategoryFromU32(d.info.1).None? ==> r == Unknown
    ensures DutyTypeFromU8(d.info.0).Some? && DutyCategoryFromU32(d.info.1).Some? ==>
      r == dutyName(DutyTypeFromU8(d.info.0).value, DutyCategoryFromU32(d.info.1).value, d.info.2)
  {
    match DutyTypeFromU8(d.info.0)
    case None => Unknown
    case Some(kind) =>
      match DutyCategoryFromU32(d.info.1)
      case None => Unknown
      case Some(category) => dutyName(kind, category, d.info.2)
  }

  /** A key written from a duty type and category is named by the naming function. */
  lemma DutyInfoNameOfCodes(t: Listing.DutyType, c: Listing.DutyCategory, duty: U16, count: nat,
                            dutyName: (Listing.DutyType, Listing.DutyCategory, U16) -> string)
    ensures DutyInfoName(DutyInfo((DutyTypeCode(t), DutyCategoryCode(c), duty), count), dutyName) == dutyName(t, c, duty)
  {
    DutyTypeRoundTrip(t);
    DutyCategoryRoundTrip(c);
  }

  /** A category code with two bits set, such as 3, names no duty. */
  lemma DutyInfoNameCombinedCategory(t: U8, duty: U16, count: nat,
                                     dutyName: (Listing.DutyType, Listing.DutyCategory, U16) -> string)
    ensures DutyInfoName(DutyInfo((t, 3, duty), count), dutyName) == Unknown
  {
  }

  // ---------------------------------------------------------------------------------------
  // Hosts and days
  // ---------------------------------------------------------------------------------------

  function Sum(xs: seq<nat>): nat {
    if |xs| == 0 then 0 else xs[0] + Sum(xs[1..])
  }

  /**
   * `num_other`: the world's listings not made by its top hosts. The `usize` subtraction
   * panics when the top hosts' counts exceed the total; that is `None` here.
   */
  function NumOther(h: HostInfo): (r: Option<nat>)
    ensures r.Some? <==> Sum(h.contentCounts) <= h.count
    ensures r.Some? ==> r.value + Sum(h.contentCounts) == h.count
  {
    var top := Sum(h.contentCounts);
    if top <= h.count then Some(h.count - top) else None
  }

  /** The top hosts' counts can be summed in either order. */
  lemma {:induction false} SumAppend(a: seq<nat>, b: seq<nat>)
    ensures Sum(a + b) == Sum(a) + Sum(b)
  {
    if |a| == 0 {
      assert a + b == b;
    } else {
      assert (a + b)[1..] == a[1..] + b;
      SumAppend(a[1..], b);
    }
  }

  /** Another top host's count moves from `num_other` into the top hosts' total. */
  lemma NumOtherAddHost(h: HostInfo, more: nat)
    requires Sum(h.contentCounts) + more <= h.count
    ensures NumOther(h).Some? && NumOther(HostInfo(h.createdWorld, h.count, h.contentCounts + [more])).Some?
    ensures NumOther(HostInfo(h.createdWorld, h.count, h.contentCounts + [more])).value == NumOther(h).value - more
  {
    SumAppend(h.contentCounts, [more]);
    assert Sum([more]) == more;
  }

  /** `HostInfo::world_name`: the created world's name, or `<unknown>`. */
  function HostWorldName(h: HostInfo, worlds: map<nat, string>): (r: string)
    ensures h.createdWorld in worlds ==> r == worlds[h.createdWorld]
    ensures h.createdWorld !in worlds ==> r == Unknown
    ensures r == Unknown || r in worlds.Values
  {
    WorldOrUnknown(h.createdWorld, worlds)
  }

  const DayNames: seq<string> := ["Sunday", "Monday", "Tuesday", "Wednesday", "Thursday", "Friday", "Saturday"]

  /** `DayInfo::name`: MongoDB's day of week, 1 for Sunday to 7 for Saturday. */
  function DayName(day: U8): (r: string)
    ensures 1 <= day <= 7 ==> r == DayNames[day - 1]
    ensures !(1 <= day <= 7) ==> r == Unknown
  {
    match day
    case 1 => "Sunday"
    case 2 => "Monday"
    case 3 => "Tuesday"
    case 4 => "Wednesday"
    case 5 => "Thursday"
    case 6 => "Friday"
    case 7 => "Saturday"
    case _ => Unknown
  }

  /** The seven days get seven different names, none of them `<unknown>`. */
  lemma DayNameInjective(d: U8, e: U8)
    requires 1 <= d <= 7 && 1 <= e <= 7
    ensures DayName(d) != Unknown
    ensures DayName(d) == DayName(e) ==> d == e
  {
  }
}

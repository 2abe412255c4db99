/**
 * How the server classifies and renders a Party Finder listing (`server/src/listing.rs`):
 * the duty name and Party Finder category chosen by ordered match rules, the job bit mask
 * decoded into classes and jobs, the per-slot view, and the flag labels shown before a
 * description. The game tables (`DUTIES`, `ROULETTES`, `TERRITORY_NAMES`, `TREASURE_MAPS`,
 * `JOBS`, `WORLDS`) are data and enter as a `GameData` parameter; the roles and short codes
 * of classes and jobs come from a foreign library and enter as functions.
 */
module Listing {
  import opened Wrappers
  import opened Text
  import Duties
  import GameTables

  type U8 = x: nat | x < 0x100
  type U16 = x: nat | x < 0x1_0000

  /** A class or job, as the generated `JOBS` table holds it. */
  type ClassJob = GameTables.JobValue

  datatype DutyType = Other | Roulette | Normal

  datatype DutyCategory =
    | Duty | QuestBattles | Fates | TreasureHunt | TheHunt
    | GatheringForays | DeepDungeons | AdventuringForays

  /** The category's `Debug` rendering: the variant name. */
  function DebugName(c: DutyCategory): string {
    match c
    case Duty => "Duty"
    case QuestBattles => "QuestBattles"
    case Fates => "Fates"
    case TreasureHunt => "TreasureHunt"
    case TheHunt => "TheHunt"
    case GatheringForays => "GatheringForays"
    case DeepDungeons => "DeepDungeons"
    case AdventuringForays => "AdventuringForays"
  }

  /** One slot of a party: the classes and jobs it accepts, as a `JobFlags` mask. */
  datatype PartyFinderSlot = PartyFinderSlot(accepting: bv32)

  /** The fields of a listing that the helpers below read, and the current world. */
  datatype PartyFinderListing = PartyFinderListing(
    createdWorld: U8,
    homeWorld: U8,
    currentWorld: U8,
    category: DutyCategory,
    duty: U16,
    dutyType: DutyType,
    slotsAvailable: U8,
    objective: bv32,
    conditions: bv32,
    searchArea: bv32,
    slots: seq<PartyFinderSlot>,
    jobsPresent: seq<U8>)

  datatype RouletteInfo = RouletteInfo(name: string, pvp: bool)

  /** The generated game tables, keyed by the game's row ids. */
  datatype GameData = GameData(
    territoryNames: map<nat, string>,
    duties: map<nat, Duties.DutyInfo<string>>,
    roulettes: map<nat, RouletteInfo>,
    treasureMaps: map<nat, string>,
    jobs: map<nat, ClassJob>,
    worlds: map<nat, string>)

  datatype Role = Tank | Healer | Dps

  // ---------------------------------------------------------------------------------------
  // Flags
  // ---------------------------------------------------------------------------------------

  /** `flags.contains(1 << bit)`: a single-bit flag is set. */
  predicate HasFlag(flags: bv32, bit: nat)
    requires bit < 32
  {
    flags & (1 << bit) != 0
  }

  /** `JobFlags::all()`: bits 1 to 27. */
  const AllJobs: bv32 := 0x0FFF_FFFE

  /** The class or job of bit `b` of a `JobFlags` mask is `FlagJobs[b - 1]`. */
  const FlagJobs: seq<ClassJob> := [
    GameTables.CombatClass("Gladiator"),
    GameTables.CombatClass("Pugilist"),
    GameTables.CombatClass("Marauder"),
    GameTables.CombatClass("Lancer"),
    GameTables.CombatClass("Archer"),
    GameTables.CombatClass("Conjurer"),
    GameTables.CombatClass("Thaumaturge"),
    GameTables.CombatJob("Paladin"),
    GameTables.CombatJob("Monk"),
    GameTables.CombatJob("Warrior"),
    GameTables.CombatJob("Dragoon"),
    GameTables.CombatJob("Bard"),
    GameTables.CombatJob("WhiteMage"),
    GameTables.CombatJob("BlackMage"),
    GameTables.CombatClass("Arcanist"),
    GameTables.CombatJob("Summoner"),
    GameTables.CombatJob("Scholar"),
    GameTables.CombatClass("Rogue"),
    GameTables.CombatJob("Ninja"),
    GameTables.CombatJob("Machinist"),
    GameTables.CombatJob("DarkKnight"),
    GameTables.CombatJob("Astrologian"),
    GameTables.CombatJob("Samurai"),
    GameTables.CombatJob("RedMage"),
    GameTables.CombatJob("BlueMage"),
    GameTables.CombatJob("Gunbreaker"),
    GameTables.CombatJob("Dancer")
  ]

  // ---------------------------------------------------------------------------------------
  // Simple accessors
  // ---------------------------------------------------------------------------------------

  /** `slots_filled`: the number of non-zero entries of `jobs_present`. */
  function SlotsFilled(jobsPresent: seq<U8>): (r: nat)
    ensures r <= |jobsPresent|
    ensures r == |jobsPresent| <==> forall i :: 0 <= i < |jobsPresent| ==> jobsPresent[i] > 0
    ensures r == 0 <==> forall i :: 0 <= i < |jobsPresent| ==> jobsPresent[i] == 0
  {
    if |jobsPresent| == 0 then 0
    else (if jobsPresent[0] > 0 then 1 else 0) + SlotsFilled(jobsPresent[1..])
  }

  /** `is_cross_world`: the `DATA_CENTRE` search-area bit (bit 0) is set. */
  function IsCrossWorld(l: PartyFinderListing): (r: bool)
    ensures r <==> l.searchArea % 2 == 1
  {
    HasFlag(l.searchArea, 0)
  }

  /** The world's name, or its number in decimal when `WORLDS` does not know it. */
  function WorldString(world: U8, data: GameData): (r: string)
    ensures world in data.worlds ==> r == data.worlds[world]
    ensures world !in data.worlds ==> AllDigits(r) && DecimalValue(r) == world
  {
    if world in data.worlds then data.worlds[world] else NatToString(world)
  }

  function CreatedWorldString(l: PartyFinderListing, data: GameData): string {
    WorldString(l.createdWorld, data)
  }

  function HomeWorldString(l: PartyFinderListing, data: GameData): string {
    WorldString(l.homeWorld, data)
  }

  /** `high_end`: only a Normal duty found in `DUTIES` can be high-end. */
  function HighEnd(l: PartyFinderListing, data: GameData): (r: bool)
    ensures r ==> l.dutyType.Normal? && l.duty in data.duties
    ensures l.dutyType.Normal? && l.duty in data.duties ==> r == data.duties[l.duty].highEnd
  {
    if !l.dutyType.Normal? then false
    else if l.duty in data.duties then data.duties[l.duty].highEnd
    else false
  }

  /** `content_kind`: the kind's code for a Normal duty found in `DUTIES`, else 0. */
  function ContentKindCode(l: PartyFinderListing, data: GameData): (r: Duties.U32)
    ensures !(l.dutyType.Normal? && l.duty in data.duties) ==> r == 0
  {
    if !l.dutyType.Normal? then 0
    else if l.duty in data.duties then Duties.AsU32(data.duties[l.duty].contentKind)
    else 0
  }

  /** The code `content_kind` reports decodes back to the duty's kind. */
  lemma ContentKindDecodes(l: PartyFinderListing, data: GameData)
    requires l.dutyType.Normal? && l.duty in data.duties
    requires Duties.Canonical(data.duties[l.duty].contentKind)
    ensures Duties.FromU32(ContentKindCode(l, data)) == data.duties[l.duty].contentKind
  {
    Duties.FromAsU32(data.duties[l.duty].contentKind);
  }

  // ---------------------------------------------------------------------------------------
  // duty_name
  // ---------------------------------------------------------------------------------------

  /**
   * `duty_name`: the match arms in order. An arm for Normal or Roulette whose table lookup
   * fails leaves the match, so it falls through to the category's debug name rather than
   * to the later arms.
   */
  function DutyName(l: PartyFinderListing, data: GameData): (r: string)
    ensures l.dutyType.Other? && l.category.Fates? ==>
      r == (if l.duty in data.territoryNames then data.territoryNames[l.duty] else "Fates")
    ensures l.dutyType.Other? && l.category.TheHunt? ==> r == "The Hunt"
    ensures l.dutyType.Other? && l.category.QuestBattles? ==> r == "Quest Battles"
    ensures l.dutyType.Normal? ==>
      r == (if l.duty in data.duties then data.duties[l.duty].name else DebugName(l.category))
    ensures l.dutyType.Roulette? ==>
      r == (if l.duty in data.roulettes then data.roulettes[l.duty].name else DebugName(l.category))
  {
    var t, c := l.dutyType, l.category;
    if t.Other? && c.Fates? then
      if l.duty in data.territoryNames then data.territoryNames[l.duty] else "Fates"
    else if t.Other? && c.TheHunt? then "The Hunt"
    else if t.Other? && c.Duty? && l.duty == 0 then "None"
    else if t.Other? && c.DeepDungeons? && l.duty == 1 then "The Palace of the Dead"
    else if t.Other? && c.DeepDungeons? && l.duty == 2 then "Heaven-on-High"
    else if t.Normal? && l.duty in data.duties then data.duties[l.duty].name
    else if t.Normal? then DebugName(c)
    else if t.Roulette? && l.duty in data.roulettes then data.roulettes[l.duty].name
    else if t.Roulette? then DebugName(c)
    else if c.QuestBattles? then "Quest Battles"
    else if c.TreasureHunt? && l.duty in data.treasureMaps then data.treasureMaps[l.duty]
    else DebugName(c)
  }

  /** The name of an Other-type duty never consults the duty or roulette tables. */
  lemma DutyNameOtherIgnoresDuties(l: PartyFinderListing, data: GameData, duties: map<nat, Duties.DutyInfo<string>>, roulettes: map<nat, RouletteInfo>)
    requires l.dutyType.Other?
    ensures DutyName(l, data) == DutyName(l, data.(duties := duties, roulettes := roulettes))
  {
  }

  /** The name of a Normal duty depends only on `DUTIES`. */
  lemma DutyNameNormalOnlyDuties(l: PartyFinderListing, data: GameData, other: GameData)
    requires l.dutyType.Normal? && data.duties == other.duties
    ensures DutyName(l, data) == DutyName(l, other)
  {
  }

  /** The fixed names of Other-type duties, by category and duty number. */
  lemma DutyNameFixedArms(l: PartyFinderListing, data: GameData)
    requires l.dutyType.Other?
    ensures l.category.Duty? && l.duty == 0 ==> DutyName(l, data) == "None"
    ensures l.category.Duty? && l.duty != 0 ==> DutyName(l, data) == "Duty"
    ensures l.category.DeepDungeons? && l.duty == 1 ==> DutyName(l, data) == "The Palace of the Dead"
    ensures l.category.DeepDungeons? && l.duty == 2 ==> DutyName(l, data) == "Heaven-on-High"
    ensures l.category.TreasureHunt? ==>
      DutyName(l, data) == (if l.duty in data.treasureMaps then data.treasureMaps[l.duty] else "TreasureHunt")
  {
  }

  // ---------------------------------------------------------------------------------------
  // Party Finder category
  // ---------------------------------------------------------------------------------------

  /** The categories of the Party Finder window; `NoneCategory` is the variant named `None`. */
  datatype PartyFinderCategory =
    | DutyRoulette | Dungeons | Guildhests | Trials | Raids | HighEndDuty | Pvp
    | QuestBattles | Fates | TreasureHunt | TheHunt | GatheringForays | DeepDungeons
    | AdventuringForays | NoneCategory

  /** `PartyFinderCategory::ALL`, in declaration order. */
  const AllCategories: seq<PartyFinderCategory> := [
    DutyRoulette, Dungeons, Guildhests, Trials, Raids, HighEndDuty, Pvp,
    PartyFinderCategory.QuestBattles, PartyFinderCategory.Fates, PartyFinderCategory.TreasureHunt,
    PartyFinderCategory.TheHunt, PartyFinderCategory.GatheringForays,
    PartyFinderCategory.DeepDungeons, PartyFinderCategory.AdventuringForays, NoneCategory
  ]

  /** `as_str`: the identifier used in HTML attributes. */
  function AsStr(c: PartyFinderCategory): string {
    match c
    case DutyRoulette => "DutyRoulette"
    case Dungeons => "Dungeons"
    case Guildhests => "Guildhests"
    case Trials => "Trials"
    case Raids => "Raids"
    case HighEndDuty => "HighEndDuty"
    case Pvp => "Pvp"
    case QuestBattles => "QuestBattles"
    case Fates => "Fates"
    case TreasureHunt => "TreasureHunt"
    case TheHunt => "TheHunt"
    case GatheringForays => "GatheringForays"
    case DeepDungeons => "DeepDungeons"
    case AdventuringForays => "AdventuringForays"
    case NoneCategory => "None"
  }

  /** `name`: the label shown to users. */
  function Name(c: PartyFinderCategory): string {
    match c
    case DutyRoulette => "Duty Roulette"
    case Dungeons => "Dungeons"
    case Guildhests => "Guildhests"
    case Trials => "Trials"
    case Raids => "Raids"
    case HighEndDuty => "High-end Duty"
    case Pvp => "PvP"
    case QuestBattles => "Quest Battles"
    case Fates => "FATEs"
    case TreasureHunt => "Treasure Hunt"
    case TheHunt => "The Hunt"
    case GatheringForays => "Gathering Forays"
    case DeepDungeons => "Deep Dungeons"
    case AdventuringForays => "Adventuring Forays"
    case NoneCategory => "None"
  }

  /** `ALL` lists every category exactly once. */
  lemma AllCategoriesComplete(c: PartyFinderCategory)
    ensures c in AllCategories
    ensures |AllCategories| == 15
    ensures forall i, j :: 0 <= i < j < |AllCategories| ==> AllCategories[i] != AllCategories[j]
  {
  }

  /** Distinct categories have distinct identifiers and distinct labels, and no identifier is `unknown`. */
  lemma AsStrNameInjective(c: PartyFinderCategory, d: PartyFinderCategory)
    ensures AsStr(c) == AsStr(d) ==> c == d
    ensures Name(c) == Name(d) ==> c == d
    ensures AsStr(c) != "unknown"
  {
    AsStrInjective(c, d);
    NameInjective(c, d);
  }

  lemma AsStrInjective(c: PartyFinderCategory, d: PartyFinderCategory)
    ensures AsStr(c) == AsStr(d) ==> c == d
    ensures AsStr(c) != "unknown"
  {
  }

  lemma NameInjective(c: PartyFinderCategory, d: PartyFinderCategory)
    ensures Name(c) == Name(d) ==> c == d
  {
  }

  /**
   * `pf_category`: the first matching rule of an ordered list. Roulettes come first, then
   * the Normal gathering and adventuring forays and the Other deep dungeons, then high-end
   * duties ahead of the content-kind rules, then the category-only rules; what no rule
   * matches has no category.
   */
  function PfCategory(l: PartyFinderListing, data: GameData): (r: Option<PartyFinderCategory>)
    ensures l.dutyType.Roulette? ==> r.Some?
    ensures l.category.QuestBattles? || l.category.Fates? || l.category.TreasureHunt? || l.category.TheHunt? ==> r.Some?
    ensures l.dutyType.Other? && l.duty !in data.duties ==> r.Some?
  {
    var t, c := l.dutyType, l.category;
    var known := l.duty in data.duties;
    if t.Roulette? then
      Some(if l.duty in data.roulettes && data.roulettes[l.duty].pvp then Pvp else DutyRoulette)
    else if t.Normal? && c.GatheringForays? then Some(PartyFinderCategory.GatheringForays)
    else if t.Other? && c.DeepDungeons? then Some(PartyFinderCategory.DeepDungeons)
    else if t.Normal? && c.AdventuringForays? then Some(PartyFinderCategory.AdventuringForays)
    else if t.Normal? && known && data.duties[l.duty].highEnd then Some(HighEndDuty)
    else if t.Normal? && known && data.duties[l.duty].contentKind.Dungeons? then Some(Dungeons)
    else if t.Normal? && known && data.duties[l.duty].contentKind.Guildhests? then Some(Guildhests)
    else if t.Normal? && known && data.duties[l.duty].contentKind.Trials? then Some(Trials)
    else if t.Normal? && known && data.duties[l.duty].contentKind.Raids? then Some(Raids)
    else if t.Normal? && known && data.duties[l.duty].contentKind.PvP? then Some(Pvp)
    else if c.QuestBattles? then Some(PartyFinderCategory.QuestBattles)
    else if c.Fates? then Some(PartyFinderCategory.Fates)
    else if c.TreasureHunt? then Some(PartyFinderCategory.TreasureHunt)
    else if c.TheHunt? then Some(PartyFinderCategory.TheHunt)
    else if t.Other? && !known then Some(NoneCategory)
    else None
  }

  /** A roulette is `Pvp` exactly when its `ROULETTES` entry says so, and `DutyRoulette` otherwise. */
  lemma PfCategoryRoulette(l: PartyFinderListing, data: GameData)
    requires l.dutyType.Roulette?
    ensures PfCategory(l, data) == Some(Pvp) <==> l.duty in data.roulettes && data.roulettes[l.duty].pvp
    ensures PfCategory(l, data) != Some(Pvp) ==> PfCategory(l, data) == Some(DutyRoulette)
  {
  }

  /** A high-end Normal duty outside the forays is `HighEndDuty`, whatever its content kind. */
  lemma PfCategoryHighEnd(l: PartyFinderListing, data: GameData)
    requires l.dutyType.Normal? && !l.category.GatheringForays? && !l.category.AdventuringForays?
    requires HighEnd(l, data)
    ensures PfCategory(l, data) == Some(HighEndDuty)
  {
  }

  /** A Normal duty's category follows its content kind when it is not high-end. */
  lemma PfCategoryByKind(l: PartyFinderListing, data: GameData)
    requires l.dutyType.Normal? && !l.category.GatheringForays? && !l.category.AdventuringForays?
    requires l.duty in data.duties && !data.duties[l.duty].highEnd
    ensures data.duties[l.duty].contentKind.Dungeons? ==> PfCategory(l, data) == Some(Dungeons)
    ensures data.duties[l.duty].contentKind.Guildhests? ==> PfCategory(l, data) == Some(Guildhests)
    ensures data.duties[l.duty].contentKind.Trials? ==> PfCategory(l, data) == Some(Trials)
    ensures data.duties[l.duty].contentKind.Raids? ==> PfCategory(l, data) == Some(Raids)
    ensures data.duties[l.duty].contentKind.PvP? ==> PfCategory(l, data) == Some(Pvp)
  {
  }

  /** `html_pf_category`: the category's identifier, or `unknown` when there is none. */
  function HtmlPfCategory(l: PartyFinderListing, data: GameData): (r: string)
    ensures r == "unknown" <==> PfCategory(l, data).None?
    ensures PfCategory(l, data).Some? ==> r == AsStr(PfCategory(l, data).value)
  {
    var cat := PfCategory(l, data);
    AsStrNameInjective(if cat.Some? then cat.value else NoneCategory, NoneCategory);
    if cat.Some? then AsStr(cat.value) else "unknown"
  }

  /** A Normal, non-high-end Eureka duty in the plain Duty category matches no rule. */
  lemma PfCategoryUnmatched(l: PartyFinderListing, data: GameData)
    requires l.dutyType.Normal? && l.category.Duty?
    requires l.duty in data.duties && !data.duties[l.duty].highEnd
    requires data.duties[l.duty].contentKind.Eureka?
    ensures PfCategory(l, data).None?
    ensures HtmlPfCategory(l, data) == "unknown"
  {
  }

  // ---------------------------------------------------------------------------------------
  // JobFlags::classjobs
  // ---------------------------------------------------------------------------------------

  /** The classes and jobs of the set bits among bits 1..n, in ascending bit order. */
  function JobsUpTo(flags: bv32, n: nat): seq<ClassJob>
    requires n <= |FlagJobs|
  {
    if n == 0 then []
    else JobsUpTo(flags, n - 1) + (if HasFlag(flags, n) then [FlagJobs[n - 1]] else [])
  }

  /** The set bits among bits 1..n, ascending: the reference `classjobs` is read against. */
  function SetBitsUpTo(flags: bv32, n: nat): (bits: seq<nat>)
    requires n < 32
    ensures forall i :: 0 <= i < |bits| ==> 1 <= bits[i] <= n && HasFlag(flags, bits[i])
    ensures forall b :: 1 <= b <= n && HasFlag(flags, b) ==> b in bits
    ensures forall i, j :: 0 <= i < j < |bits| ==> bits[i] < bits[j]
  {
    if n == 0 then []
    else SetBitsUpTo(flags, n - 1) + (if HasFlag(flags, n) then [n] else [])
  }

  function ClassJobsOf(flags: bv32): seq<ClassJob> {
    JobsUpTo(flags, |FlagJobs|)
  }

  /** `classjobs`: one push per set bit, from bit 1 to bit 27. */
  method ClassJobs(flags: bv32) returns (cjs: seq<ClassJob>)
    ensures cjs == ClassJobsOf(flags)
  {
    cjs := [];
    var n := 0;
    while n < |FlagJobs|
      invariant n <= |FlagJobs|
      invariant cjs == JobsUpTo(flags, n)
    {
      n := n + 1;
      if HasFlag(flags, n) {
        cjs := cjs + [FlagJobs[n - 1]];
      }
    }
  }

  /** Each listed class or job is the one of the bit at the same position. */
  predicate Paired(jobs: seq<ClassJob>, bits: seq<nat>) {
    |jobs| == |bits| &&
    forall i :: 0 <= i < |jobs| ==> 1 <= bits[i] <= |FlagJobs| && jobs[i] == FlagJobs[bits[i] - 1]
  }

  lemma PairedSnoc(jobs: seq<ClassJob>, bits: seq<nat>, n: nat)
    requires Paired(jobs, bits) && 1 <= n <= |FlagJobs|
    ensures Paired(jobs + [FlagJobs[n - 1]], bits + [n])
  {
    var jn, bn := jobs + [FlagJobs[n - 1]], bits + [n];
    forall i | 0 <= i < |jn|
      ensures 1 <= bn[i] <= |FlagJobs| && jn[i] == FlagJobs[bn[i] - 1]
    {
      if i < |jobs| {
        assert jn[i] == jobs[i] && bn[i] == bits[i];
      }
    }
  }

  /** `classjobs` lists, in ascending bit order, the class or job of every set bit and nothing else. */
  lemma {:induction false} ClassJobsAtSetBits(flags: bv32, n: nat)
    requires n <= |FlagJobs|
    ensures |JobsUpTo(flags, n)| == |SetBitsUpTo(flags, n)|
    ensures forall i :: 0 <= i < |JobsUpTo(flags, n)| ==>
      JobsUpTo(flags, n)[i] == FlagJobs[SetBitsUpTo(flags, n)[i] - 1]
  {
    ClassJobsPaired(flags, n);
  }

  lemma {:induction false} ClassJobsPaired(flags: bv32, n: nat)
    requires n <= |FlagJobs|
    ensures Paired(JobsUpTo(flags, n), SetBitsUpTo(flags, n))
  {
    if n > 0 {
      ClassJobsPaired(flags, n - 1);
      var jobs, bits := JobsUpTo(flags, n - 1), SetBitsUpTo(flags, n - 1);
      if HasFlag(flags, n) {
        assert JobsUpTo(flags, n) == jobs + [FlagJobs[n - 1]] && SetBitsUpTo(flags, n) == bits + [n];
        PairedSnoc(jobs, bits, n);
      } else {
        assert JobsUpTo(flags, n) == jobs && SetBitsUpTo(flags, n) == bits;
      }
    }
  }

  lemma {:induction false} JobsUpToNone(flags: bv32, n: nat)
    requires n <= |FlagJobs|
    requires forall b :: 1 <= b <= n ==> !HasFlag(flags, b)
    ensures JobsUpTo(flags, n) == []
  {
    if n > 0 {
      JobsUpToNone(flags, n - 1);
    }
  }

  /** The mask 167772160 is Blue Mage and Dancer (bits 25 and 27), listed in that order. */
  lemma ClassJobsBlueMageDancer()
    ensures ClassJobsOf(167772160) == [GameTables.CombatJob("BlueMage"), GameTables.CombatJob("Dancer")]
  {
    var f: bv32 := 167772160;
    JobsUpToNone(f, 24);
    assert HasFlag(f, 25) && !HasFlag(f, 26) && HasFlag(f, 27);
    assert JobsUpTo(f, 25) == [FlagJobs[24]];
    assert JobsUpTo(f, 26) == [FlagJobs[24]];
  }

  // ---------------------------------------------------------------------------------------
  // prepend_flags
  // ---------------------------------------------------------------------------------------

  datatype FlagField = ObjectiveField | ConditionsField | SearchAreaField

  /** A label shown when bit `bit` of `field` is set. */
  datatype FlagLabel = FlagLabel(field: FlagField, bit: nat, text: string)

  /** The labels `prepend_flags` may show, in the order it shows them. */
  const FlagLabels: seq<FlagLabel> := [
    FlagLabel(ObjectiveField, 1, "[Practice]"),
    FlagLabel(ObjectiveField, 0, "[Duty Completion]"),
    FlagLabel(ObjectiveField, 2, "[Loot]"),
    FlagLabel(ConditionsField, 1, "[Duty Complete]"),
    FlagLabel(ConditionsField, 2, "[Duty Incomplete]"),
    FlagLabel(SearchAreaField, 5, "[One Player per Job]")
  ]

  function FieldOf(l: PartyFinderListing, f: FlagField): bv32 {
    match f
    case ObjectiveField => l.objective
    case ConditionsField => l.conditions
    case SearchAreaField => l.searchArea
  }

  predicate Shows(l: PartyFinderListing, flag: FlagLabel) {
    flag.bit < 32 && HasFlag(FieldOf(l, flag.field), flag.bit)
  }

  /** The texts of the labels of `labels` that `l` shows, in order. */
  function ShownTexts(l: PartyFinderListing, labels: seq<FlagLabel>): seq<string> {
    if |labels| == 0 then []
    else
      var last := labels[|labels| - 1];
      ShownTexts(l, labels[..|labels| - 1]) + (if Shows(l, last) then [last.text] else [])
  }

  /** The description colour: loot wins over duty completion, which wins over practice. */
  function Colour(l: PartyFinderListing): string {
    if HasFlag(l.objective, 2) then "desc-yellow"
    else if HasFlag(l.objective, 0) then "desc-blue"
    else if HasFlag(l.objective, 1) then "desc-green"
    else ""
  }

  lemma ShownTextsStep(l: PartyFinderListing, k: nat)
    requires k < |FlagLabels|
    ensures ShownTexts(l, FlagLabels[..k + 1]) ==
      ShownTexts(l, FlagLabels[..k]) + (if Shows(l, FlagLabels[k]) then [FlagLabels[k].text] else [])
  {
    assert FlagLabels[..k + 1][..k] == FlagLabels[..k];
  }

  /** The three objective labels, in order, each present when its flag is set. */
  lemma ObjectiveTexts(l: PartyFinderListing)
    ensures ShownTexts(l, FlagLabels[..3]) ==
      (if HasFlag(l.objective, 1) then ["[Practice]"] else [])
      + (if HasFlag(l.objective, 0) then ["[Duty Completion]"] else [])
      + (if HasFlag(l.objective, 2) then ["[Loot]"] else [])
  {
    assert FlagLabels[..0] == [];
    ShownTextsStep(l, 0);
    ShownTextsStep(l, 1);
    ShownTextsStep(l, 2);
  }

  /** All six labels, in order, each present when its flag is set. */
  lemma ShownTextsExpand(l: PartyFinderListing)
    ensures ShownTexts(l, FlagLabels) ==
      ShownTexts(l, FlagLabels[..3])
      + (if HasFlag(l.conditions, 1) then ["[Duty Complete]"] else [])
      + (if HasFlag(l.conditions, 2) then ["[Duty Incomplete]"] else [])
      + (if HasFlag(l.searchArea, 5) then ["[One Player per Job]"] else [])
  {
    ShownTextsStep(l, 3);
    ShownTextsStep(l, 4);
    ShownTextsStep(l, 5);
    assert FlagLabels[..6] == FlagLabels;
  }

  /**
   * `prepend_flags`: each set flag pushes its label, and each objective flag overwrites the
   * colour, so the last objective set decides it.
   */
  method PrependFlags(l: PartyFinderListing) returns (colourClass: string, flags: string)
    ensures colourClass == Colour(l)
    ensures flags == Join(ShownTexts(l, FlagLabels), "")
  {
    var shown;
    colourClass, shown := ObjectiveFlags(l);
    ShownTextsExpand(l);
    if HasFlag(l.conditions, 1) {
      shown := shown + ["[Duty Complete]"];
    }
    if HasFlag(l.conditions, 2) {
      shown := shown + ["[Duty Incomplete]"];
    }
    if HasFlag(l.searchArea, 5) {
      shown := shown + ["[One Player per Job]"];
    }
    assert shown == ShownTexts(l, FlagLabels);
    flags := Join(shown, "");
  }

  /** The three objective pushes of `prepend_flags`, each overwriting the colour. */
  method ObjectiveFlags(l: PartyFinderListing) returns (colourClass: string, shown: seq<string>)
    ensures colourClass == Colour(l)
    ensures shown == ShownTexts(l, FlagLabels[..3])
  {
    colourClass := "";
    shown := [];
    ObjectiveTexts(l);
    if HasFlag(l.objective, 1) {
      shown := shown + ["[Practice]"];
      colourClass := "desc-green";
    }
    if HasFlag(l.objective, 0) {
      shown := shown + ["[Duty Completion]"];
      colourClass := "desc-blue";
    }
    if HasFlag(l.objective, 2) {
      shown := shown + ["[Loot]"];
      colourClass := "desc-yellow";
    }
  }

  /** With distinct texts, a label is among the shown ones exactly when its flag is set. */
  lemma {:induction false} ShownTextsExactly(l: PartyFinderListing, labels: seq<FlagLabel>, k: nat)
    requires forall i, j :: 0 <= i < j < |labels| ==> labels[i].text != labels[j].text
    requires k < |labels|
    ensures labels[k].text in ShownTexts(l, labels) <==> Shows(l, labels[k])
  {
    var n := |labels| - 1;
    var front, last := labels[..n], labels[n];
    var earlier := ShownTexts(l, front);
    var own := if Shows(l, last) then [last.text] else [];
    assert ShownTexts(l, labels) == earlier + own;
    if k < n {
      ShownTextsExactly(l, front, k);
      assert front[k] == labels[k];
      assert labels[k].text != last.text;
    } else {
      ShownTextsFrom(l, front);
      assert forall i :: 0 <= i < n ==> front[i].text != labels[k].text;
      assert labels[k].text !in earlier;
    }
  }

  /** Every shown text is the text of one of the labels. */
  lemma {:induction false} ShownTextsFrom(l: PartyFinderListing, labels: seq<FlagLabel>)
    ensures forall t :: t in ShownTexts(l, labels) ==> exists i :: 0 <= i < |labels| && labels[i].text == t
  {
    if |labels| > 0 {
      var n := |labels| - 1;
      ShownTextsFrom(l, labels[..n]);
      forall t | t in ShownTexts(l, labels)
        ensures exists i :: 0 <= i < |labels| && labels[i].text == t
      {
        if t in ShownTexts(l, labels[..n]) {
          var i :| 0 <= i < n && labels[..n][i].text == t;
          assert labels[i].text == t;
        } else {
          assert labels[n].text == t;
        }
      }
    }
  }

  /** Each of the six labels appears exactly when its flag is set. */
  lemma PrependFlagsLabels(l: PartyFinderListing, k: nat)
    requires k < |FlagLabels|
    ensures FlagLabels[k].text in ShownTexts(l, FlagLabels) <==> HasFlag(FieldOf(l, FlagLabels[k].field), FlagLabels[k].bit)
  {
    ShownTextsExactly(l, FlagLabels, k);
  }

  // ---------------------------------------------------------------------------------------
  // PartyFinderSlot::html_classes and codes
  // ---------------------------------------------------------------------------------------

  /** Some class or job of `cjs` has role `want`. */
  predicate AnyWithRole(cjs: seq<ClassJob>, role: ClassJob -> Option<Role>, want: Role) {
    exists i :: 0 <= i < |cjs| && role(cjs[i]) == Some(want)
  }

  /** The role names of an HTML class list, in the order healer, tank, dps. */
  function RoleClasses(cjs: seq<ClassJob>, role: ClassJob -> Option<Role>): (r: seq<string>)
    ensures |r| <= 3
  {
    (if AnyWithRole(cjs, role, Healer) then ["healer"] else [])
    + (if AnyWithRole(cjs, role, Tank) then ["tank"] else [])
    + (if AnyWithRole(cjs, role, Dps) then ["dps"] else [])
  }

  /** A role's name is listed exactly when some accepted class or job has that role. */
  lemma RoleClassesContents(cjs: seq<ClassJob>, role: ClassJob -> Option<Role>)
    ensures "healer" in RoleClasses(cjs, role) <==> AnyWithRole(cjs, role, Healer)
    ensures "tank" in RoleClasses(cjs, role) <==> AnyWithRole(cjs, role, Tank)
    ensures "dps" in RoleClasses(cjs, role) <==> AnyWithRole(cjs, role, Dps)
    ensures forall i :: 0 <= i < |RoleClasses(cjs, role)| ==>
      RoleClasses(cjs, role)[i] in ["healer", "tank", "dps"]
  {
  }

  function HtmlClassesOf(accepting: bv32, role: ClassJob -> Option<Role>): string {
    if accepting == AllJobs then "empty" else Join(RoleClasses(ClassJobsOf(accepting), role), " ")
  }

  /** `html_classes`: `empty` for a slot open to everyone, otherwise the roles it accepts. */
  method HtmlClasses(accepting: bv32, role: ClassJob -> Option<Role>) returns (r: string)
    ensures r == HtmlClassesOf(accepting, role)
  {
    if accepting == AllJobs {
      return "empty";
    }
    var classes: seq<string> := [];
    var cjs := ClassJobs(accepting);
    if AnyWithRole(cjs, role, Healer) {
      classes := classes + ["healer"];
    }
    if AnyWithRole(cjs, role, Tank) {
      classes := classes + ["tank"];
    }
    if AnyWithRole(cjs, role, Dps) {
      classes := classes + ["dps"];
    }
    assert classes == RoleClasses(ClassJobsOf(accepting), role);
    r := Join(classes, " ");
  }

  /** The HTML class is `empty` exactly for a slot that accepts every class and job. */
  lemma HtmlClassesEmptyIffAll(accepting: bv32, role: ClassJob -> Option<Role>)
    ensures HtmlClassesOf(accepting, role) == "empty" <==> accepting == AllJobs
  {
    if accepting != AllJobs {
      var cls := RoleClasses(ClassJobsOf(accepting), role);
      RoleClassesContents(ClassJobsOf(accepting), role);
      var s := Join(cls, " ");
      if |cls| == 0 {
        assert s == "";
      } else if |cls| == 1 {
        assert s == cls[0];
      } else {
        assert s == cls[0] + " " + Join(cls[1..], " ");
        assert s[|cls[0]|] == ' ';
        assert ' ' !in "empty";
      }
    }
  }

  function MapCodes(cjs: seq<ClassJob>, code: ClassJob -> string): (r: seq<string>)
    ensures |r| == |cjs| && forall i :: 0 <= i < |cjs| ==> r[i] == code(cjs[i])
  {
    if |cjs| == 0 then [] else [code(cjs[0])] + MapCodes(cjs[1..], code)
  }

  /** `codes`: the short codes of the accepted classes and jobs, separated by single spaces. */
  function Codes(accepting: bv32, code: ClassJob -> string): string {
    Join(MapCodes(ClassJobsOf(accepting), code), " ")
  }

  /** When no code holds a space, splitting `codes` on spaces gives back every code, in bit order. */
  lemma CodesSplit(accepting: bv32, code: ClassJob -> string)
    requires forall cj :: ' ' !in code(cj)
    requires ClassJobsOf(accepting) != []
    ensures Split(Codes(accepting, code), ' ') == MapCodes(ClassJobsOf(accepting), code)
  {
    SplitJoin(MapCodes(ClassJobsOf(accepting), code), ' ');
  }

  // ---------------------------------------------------------------------------------------
  // slots
  // ---------------------------------------------------------------------------------------

  /** One rendered slot: the job that fills it, or its HTML classes and codes when open. */
  datatype Slot = Filled(job: ClassJob) | Open(classes: string, codes: string)

  /** The number of slots `slots()` visits. */
  function SlotCount(l: PartyFinderListing): nat {
    if l.slotsAvailable <= |l.jobsPresent| then l.slotsAvailable else |l.jobsPresent|
  }

  /** What `slots()` reports for an open slot: its HTML classes and its codes. */
  function OpenRendering(role: ClassJob -> Option<Role>, code: ClassJob -> string): bv32 -> (string, string) {
    accepting => (HtmlClassesOf(accepting, role), Codes(accepting, code))
  }

  /**
   * Slot `i`, with `render` the rendering of an open slot; `None` when an open slot indexes
   * past the end of `slots`, which panics.
   */
  function SlotAt(l: PartyFinderListing, i: nat, data: GameData, render: bv32 -> (string, string)): (r: Option<Slot>)
    requires i < |l.jobsPresent|
    ensures r.None? <==> l.jobsPresent[i] !in data.jobs && i >= |l.slots|
    ensures r.Some? ==> (r.value.Filled? <==> l.jobsPresent[i] in data.jobs)
    ensures r.Some? && r.value.Filled? ==> r.value.job == data.jobs[l.jobsPresent[i]]
  {
    if l.jobsPresent[i] in data.jobs then Some(Filled(data.jobs[l.jobsPresent[i]]))
    else if i < |l.slots| then Some(Open(render(l.slots[i].accepting).0, render(l.slots[i].accepting).1))
    else None
  }

  /** The first `n` slots, or `None` once one of them panics. */
  function SlotsUpTo(l: PartyFinderListing, n: nat, data: GameData, render: bv32 -> (string, string)): Option<seq<Slot>>
    requires n <= |l.jobsPresent|
  {
    if n == 0 then Some([])
    else
      var prev, x := SlotsUpTo(l, n - 1, data, render), SlotAt(l, n - 1, data, render);
      if prev.Some? && x.Some? then Some(prev.value + [x.value]) else None
  }

  function SlotsOf(l: PartyFinderListing, data: GameData, render: bv32 -> (string, string)): Option<seq<Slot>> {
    SlotsUpTo(l, SlotCount(l), data, render)
  }

  lemma {:induction false} SlotsPanicSticks(l: PartyFinderListing, m: nat, n: nat, data: GameData, render: bv32 -> (string, string))
    requires m <= n <= |l.jobsPresent|
    requires SlotsUpTo(l, m, data, render).None?
    ensures SlotsUpTo(l, n, data, render).None?
  {
    if m < n {
      SlotsPanicSticks(l, m, n - 1, data, render);
      assert !SlotsUpTo(l, n - 1, data, render).Some?;
    }
  }

  lemma SlotsUpToStep(l: PartyFinderListing, i: nat, data: GameData, render: bv32 -> (string, string))
    requires i < |l.jobsPresent| && SlotsUpTo(l, i, data, render).Some?
    ensures SlotAt(l, i, data, render).Some? ==>
      SlotsUpTo(l, i + 1, data, render) == Some(SlotsUpTo(l, i, data, render).value + [SlotAt(l, i, data, render).value])
    ensures SlotAt(l, i, data, render).None? ==> SlotsUpTo(l, i + 1, data, render).None?
  {
  }

  /**
   * One pass of the `slots()` loop: the filling job, or the open slot's classes and codes as
   * `render` gives them (`html_classes` and `codes`, see `OpenRendering`).
   */
  method RenderSlot(l: PartyFinderListing, i: nat, data: GameData, render: bv32 -> (string, string))
    returns (r: Option<Slot>)
    requires i < |l.jobsPresent|
    ensures r == SlotAt(l, i, data, render)
  {
    if l.jobsPresent[i] in data.jobs {
      return Some(Filled(data.jobs[l.jobsPresent[i]]));
    } else if i < |l.slots| {
      var (classes, codes) := render(l.slots[i].accepting);
      return Some(Open(classes, codes));
    }
    // indexing `slots[i]` panics
    return None;
  }

  /** `slots()`: visits the first `min(slots_available, jobs_present.len())` slots. */
  method Slots(l: PartyFinderListing, data: GameData, role: ClassJob -> Option<Role>, code: ClassJob -> string)
    returns (r: Option<seq<Slot>>)
    ensures r == SlotsOf(l, data, OpenRendering(role, code))
  {
    r := SlotsLoop(l, data, OpenRendering(role, code));
  }

  /** The loop of `slots()`, with `render` the rendering of an open slot. */
  method SlotsLoop(l: PartyFinderListing, data: GameData, render: bv32 -> (string, string))
    returns (r: Option<seq<Slot>>)
    ensures r == SlotsOf(l, data, render)
  {
    var slots: seq<Slot> := [];
    var i := 0;
    while i < l.slotsAvailable
      invariant i <= SlotCount(l)
      invariant SlotsUpTo(l, i, data, render) == Some(slots)
    {
      if i >= |l.jobsPresent| {
        break;
      }
      var next := PushSlot(l, i, slots, data, render);
      if next.None? {
        SlotsPanicSticks(l, i + 1, SlotCount(l), data, render);
        return None;
      }
      slots := next.value;
      i := i + 1;
    }
    assert i == SlotCount(l);
    return Some(slots);
  }

  /** One pass of the `slots()` loop: slot `i` pushed after the earlier ones, or the panic. */
  method PushSlot(l: PartyFinderListing, i: nat, slots: seq<Slot>, data: GameData, render: bv32 -> (string, string))
    returns (next: Option<seq<Slot>>)
    requires i < |l.jobsPresent| && SlotsUpTo(l, i, data, render) == Some(slots)
    ensures next == SlotsUpTo(l, i + 1, data, render)
  {
    SlotsUpToStep(l, i, data, render);
    var cj := RenderSlot(l, i, data, render);
    if cj.None? {
      return None;
    }
    return Some(slots + [cj.value]);
  }

  /** The first `n` slots are slots 0 to n - 1, one each, unless one of them panics. */
  lemma {:induction false} SlotsUpToShape(l: PartyFinderListing, n: nat, data: GameData, render: bv32 -> (string, string))
    requires n <= |l.jobsPresent|
    ensures SlotsUpTo(l, n, data, render).Some? ==>
      |SlotsUpTo(l, n, data, render).value| == n &&
      forall i :: 0 <= i < n ==> SlotAt(l, i, data, render) == Some(SlotsUpTo(l, n, data, render).value[i])
  {
    if n > 0 {
      SlotsUpToShape(l, n - 1, data, render);
      var prev, x := SlotsUpTo(l, n - 1, data, render), SlotAt(l, n - 1, data, render);
      if prev.Some? && x.Some? {
        var r := prev.value + [x.value];
        assert SlotsUpTo(l, n, data, render) == Some(r);
        forall i | 0 <= i < n
          ensures SlotAt(l, i, data, render) == Some(r[i])
        {
          if i < n - 1 {
            assert r[i] == prev.value[i];
          }
        }
      }
    }
  }

  /** The first `n` slots panic exactly when one of them does. */
  lemma {:induction false} SlotsUpToPanics(l: PartyFinderListing, n: nat, data: GameData, render: bv32 -> (string, string))
    requires n <= |l.jobsPresent|
    ensures SlotsUpTo(l, n, data, render).None? <==> exists i :: 0 <= i < n && SlotAt(l, i, data, render).None?
  {
    if n > 0 {
      SlotsUpToPanics(l, n - 1, data, render);
      if SlotsUpTo(l, n - 1, data, render).None? {
        var i :| 0 <= i < n - 1 && SlotAt(l, i, data, render).None?;
        assert 0 <= i < n;
      }
    }
  }

  /** `slots()` covers `min(slots_available, jobs_present.len())` entries when it does not panic. */
  lemma SlotsLength(l: PartyFinderListing, data: GameData, render: bv32 -> (string, string))
    ensures SlotsOf(l, data, render).Some? ==>
      |SlotsOf(l, data, render).value| == SlotCount(l) &&
      SlotCount(l) <= l.slotsAvailable && SlotCount(l) <= |l.jobsPresent|
    ensures |l.slots| >= SlotCount(l) ==> SlotsOf(l, data, render).Some?
  {
    SlotsUpToShape(l, SlotCount(l), data, render);
    SlotsUpToPanics(l, SlotCount(l), data, render);
  }

  /** The number of slots a corrected `slots()` visits: it also stops at the end of `slots`. */
  function CheckedSlotCount(l: PartyFinderListing): (n: nat)
    ensures n <= SlotCount(l) && n <= |l.slots|
    ensures n == SlotCount(l) || n == |l.slots|
  {
    if SlotCount(l) <= |l.slots| then SlotCount(l) else |l.slots|
  }

  /** A corrected `slots()` that bounds its loop by both vectors it indexes, so it cannot panic. */
  function SlotsChecked(l: PartyFinderListing, data: GameData, render: bv32 -> (string, string)): (r: seq<Slot>)
    ensures |r| == CheckedSlotCount(l)
    ensures forall i :: 0 <= i < |r| ==> SlotAt(l, i, data, render) == Some(r[i])
    ensures |l.slots| >= SlotCount(l) ==> SlotsOf(l, data, render) == Some(r)
  {
    var n := CheckedSlotCount(l);
    SlotsUpToShape(l, n, data, render);
    SlotsUpToPanics(l, n, data, render);
    SlotsUpTo(l, n, data, render).value
  }
}

/**
 * The older server's listing helpers (`src/listing.rs`). Its `slots_filled`, `slots`,
 * `prepend_flags`, `created_world_string`, `html_classes`, `codes` and `classjobs` are the
 * same code as the current server's and are the `Listing` members; only `duty_name` differs,
 * with fewer arms and a roulette table that maps ids straight to names. The listing used by
 * the older server's deserialisation test is checked against the shared helpers here.
 */
module LegacyListing {
  import opened Wrappers
  import Duties
  import GameTables
  import Listing
  import Text

  /** The tables the older `duty_name` reads; its `ROULETTES` maps an id to a name. */
  datatype LegacyTables = LegacyTables(
    territoryNames: map<nat, string>,
    duties: map<nat, Duties.DutyInfo<string>>,
    roulettes: map<nat, string>)

  /**
   * The older `duty_name`: only the Fates, The Hunt, duty-0, Normal and Roulette arms;
   * everything else, and a Normal or Roulette duty missing from its table, gives the
   * category's debug name.
   */
  function DutyName(l: Listing.PartyFinderListing, tables: LegacyTables): (r: string)
    ensures l.dutyType.Other? && l.category.Fates? ==>
      r == (if l.duty in tables.territoryNames then tables.territoryNames[l.duty] else "Fates")
    ensures l.dutyType.Other? && l.category.TheHunt? ==> r == "The Hunt"
    ensures l.dutyType.Other? && l.category.Duty? && l.duty == 0 ==> r == "None"
    ensures l.dutyType.Normal? && l.duty in tables.duties ==> r == tables.duties[l.duty].name
    ensures l.dutyType.Roulette? && l.duty in tables.roulettes ==> r == tables.roulettes[l.duty]
    ensures l.dutyType.Other? && !l.category.Fates? && !l.category.TheHunt? && !(l.category.Duty? && l.duty == 0) ==>
      r == Listing.DebugName(l.category)
    ensures l.dutyType.Normal? && l.duty !in tables.duties ==> r == Listing.DebugName(l.category)
    ensures l.dutyType.Roulette? && l.duty !in tables.roulettes ==> r == Listing.DebugName(l.category)
  {
    var t, c := l.dutyType, l.category;
    if t.Other? && c.Fates? then
      if l.duty in tables.territoryNames then tables.territoryNames[l.duty] else "Fates"
    else if t.Other? && c.TheHunt? then "The Hunt"
    else if t.Other? && c.Duty? && l.duty == 0 then "None"
    else if t.Normal? && l.duty in tables.duties then tables.duties[l.duty].name
    else if t.Roulette? && l.duty in tables.roulettes then tables.roulettes[l.duty]
    else Listing.DebugName(c)
  }

  /** The current server's tables restricted to what the older `duty_name` reads. */
  function Legacy(data: Listing.GameData): (tables: LegacyTables)
    ensures tables.territoryNames == data.territoryNames && tables.duties == data.duties
    ensures forall id :: id in data.roulettes <==> id in tables.roulettes
    ensures forall id :: id in data.roulettes ==> tables.roulettes[id] == data.roulettes[id].name
  {
    LegacyTables(data.territoryNames, data.duties, map id | id in data.roulettes :: data.roulettes[id].name)
  }

  /**
   * On the same tables the two versions agree on every Normal and Roulette duty and on
   * every Other duty outside the quest-battle, deep-dungeon and treasure-hunt categories.
   */
  lemma DutyNameAgrees(l: Listing.PartyFinderListing, data: Listing.GameData)
    requires !l.dutyType.Other? ||
      !(l.category.QuestBattles? || l.category.DeepDungeons? || l.category.TreasureHunt?)
    ensures DutyName(l, Legacy(data)) == Listing.DutyName(l, data)
  {
  }

  /** Where they differ: the older server shows the debug names of these categories. */
  lemma DutyNameDiffers(l: Listing.PartyFinderListing, data: Listing.GameData)
    requires l.dutyType.Other?
    ensures l.category.QuestBattles? ==>
      DutyName(l, Legacy(data)) == "QuestBattles" && Listing.DutyName(l, data) == "Quest Battles"
    ensures l.category.DeepDungeons? && l.duty == 1 ==>
      DutyName(l, Legacy(data)) == "DeepDungeons" && Listing.DutyName(l, data) == "The Palace of the Dead"
  {
  }

  // ---------------------------------------------------------------------------------------
  // The deserialisation test's listing
  // ---------------------------------------------------------------------------------------

  /** The test's listing: objective 3, conditions 1, search area 1, one slot, eight job ids. */
  const Fixture: Listing.PartyFinderListing := Listing.PartyFinderListing(
    createdWorld := 73,
    homeWorld := 73,
    currentWorld := 73,
    category := Listing.Duty,
    duty := 55,
    dutyType := Listing.Normal,
    slotsAvailable := 7,
    objective := 3,
    conditions := 1,
    searchArea := 1,
    slots := [Listing.PartyFinderSlot(167772160)],
    jobsPresent := [5, 0, 0, 0, 0, 0, 0, 0])

  /** Objective 3 sets the practice and duty-completion bits only; conditions 1 and search area 1 add no label. */
  lemma PracticeCompletionTexts(l: Listing.PartyFinderListing)
    requires l.objective == 3 && l.conditions == 1 && l.searchArea == 1
    ensures Listing.ShownTexts(l, Listing.FlagLabels) == ["[Practice]", "[Duty Completion]"]
  {
    Listing.ObjectiveTexts(l);
    Listing.ShownTextsExpand(l);
    assert Listing.HasFlag(l.objective, 0) && Listing.HasFlag(l.objective, 1) && !Listing.HasFlag(l.objective, 2);
    assert !Listing.HasFlag(l.conditions, 1) && !Listing.HasFlag(l.conditions, 2) && !Listing.HasFlag(l.searchArea, 5);
  }

  /** The two labels joined with no separator. */
  lemma PracticeCompletionJoined()
    ensures Text.Join(["[Practice]", "[Duty Completion]"], "") == "[Practice][Duty Completion]"
  {
  }

  /** Objective 3 is Practice and Duty Completion: both labels, and the later one's colour. */
  lemma PracticeCompletionFlags(l: Listing.PartyFinderListing)
    requires l.objective == 3 && l.conditions == 1 && l.searchArea == 1
    ensures Listing.Colour(l) == "desc-blue"
    ensures Text.Join(Listing.ShownTexts(l, Listing.FlagLabels), "") == "[Practice][Duty Completion]"
  {
    PracticeCompletionTexts(l);
    PracticeCompletionJoined();
  }

  /** The test's listing shows both labels in the blue of duty completion. */
  lemma FixtureFlags()
    ensures Listing.Colour(Fixture) == "desc-blue"
    ensures Text.Join(Listing.ShownTexts(Fixture, Listing.FlagLabels), "") == "[Practice][Duty Completion]"
  {
    PracticeCompletionFlags(Fixture);
  }

  /** One of the eight job ids is set, and the listing is cross-world. */
  lemma FixtureCounts()
    ensures Listing.SlotsFilled(Fixture.jobsPresent) == 1
    ensures Listing.IsCrossWorld(Fixture)
  {
    assert Fixture.jobsPresent[1..] == [0, 0, 0, 0, 0, 0, 0];
  }

  /** The one slot accepts Blue Mage and Dancer, in that order. */
  lemma FixtureSlotJobs()
    ensures Listing.ClassJobsOf(Fixture.slots[0].accepting) == [GameTables.CombatJob("BlueMage"), GameTables.CombatJob("Dancer")]
  {
    Listing.ClassJobsBlueMageDancer();
  }

  /**
   * `JOBS` never has id 0 (the generator skips row 0), so the second slot is open and
   * `slots()` reads `slots[1]`, past the end of the single-element `slots`: it panics.
   */
  lemma FixtureSlotsPanic(data: Listing.GameData, render: bv32 -> (string, string))
    requires 0 !in data.jobs
    ensures Listing.SlotsOf(Fixture, data, render).None?
  {
    Listing.SlotsUpToPanics(Fixture, Listing.SlotCount(Fixture), data, render);
    assert Listing.SlotAt(Fixture, 1, data, render).None?;
  }

  /** The corrected `slots()` stops after the one slot there is, and fills it with job 5. */
  lemma FixtureSlotsChecked(data: Listing.GameData, render: bv32 -> (string, string))
    requires 5 in data.jobs
    ensures Listing.SlotsChecked(Fixture, data, render) == [Listing.Filled(data.jobs[5])]
  {
    var r := Listing.SlotsChecked(Fixture, data, render);
    assert |r| == 1;
    assert Listing.SlotAt(Fixture, 0, data, render) == Some(r[0]);
  }
}

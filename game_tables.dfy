/**
 * The other tables of the locale-table generator: duties, jobs, worlds (after the
 * Chinese-server correction of the world sheet) and treasure maps. Each walks the English
 * sheet in row order, skips rows by its own filter, and emits one keyed record per row kept.
 */
module GameTables {
  import opened Wrappers
  import opened SeStringText
  import opened Generator

  /** `Replace(c.ToString(), "")`: every occurrence of `c` removed. */
  function Without(s: string, c: char): (r: string)
    ensures c !in r && |r| <= |s|
    ensures forall d :: d != c ==> (d in r <==> d in s)
  {
    if |s| == 0 then ""
    else if s[0] == c then Without(s[1..], c)
    else [s[0]] + Without(s[1..], c)
  }

  /** Appends the record a row contributes, if any. */
  function Emit<X>(acc: seq<X>, e: Option<X>): seq<X> {
    if e.Some? then acc + [e.value] else acc
  }

  /** Emitting keeps every earlier record and adds the new one, if any. */
  lemma EmitKeeps<X>(acc: seq<X>, e: Option<X>)
    ensures forall x :: x in acc ==> x in Emit(acc, e)
    ensures e.Some? ==> e.value in Emit(acc, e)
  {
  }

  // ---------------------------------------------------------------------------
  // Duties (ContentFinderCondition)
  // ---------------------------------------------------------------------------

  /** A ContentType row: its id and its (possibly null) name. */
  datatype ContentType = ContentType(rowId: nat, name: Option<SeString>)

  /** The fields of a ContentFinderCondition row the generator reads; the content type is a lazy link that may not resolve. */
  datatype Duty = Duty(name: Option<SeString>, highEnd: bool, contentType: Option<ContentType>)

  /** `ContentKind::<Name>` or `ContentKind::Other(<id>)`. */
  datatype ContentKindName = KindNamed(name: string) | KindOther(code: nat)

  datatype DutyInfo = DutyInfo(name: seq<Line>, highEnd: bool, kind: ContentKindName)

  function DutyName(d: Duty): Option<SeString> {
    d.name
  }

  /** The content type's name with spaces and ampersands removed. */
  function StripKind(s: string): (r: string)
    ensures ' ' !in r && '&' !in r
  {
    Without(Without(s, ' '), '&')
  }

  /**
   * The kind a duty is emitted with: the content type's stripped name, or, when that is
   * null or empty, `Other` of the type's id (0 when the link does not resolve).
   */
  function KindOf(ct: Option<ContentType>): (k: ContentKindName)
    ensures k.KindNamed? ==> k.name != "" && ' ' !in k.name && '&' !in k.name
    ensures k.KindNamed? <==> ct.Some? && ct.value.name.Some? && StripKind(TextValue(ct.value.name.value)) != ""
    ensures k.KindNamed? ==> k.name == StripKind(TextValue(ct.value.name.value))
    ensures k.KindOther? ==> k.code == (if ct.Some? then ct.value.rowId else 0)
  {
    if ct.Some? && ct.value.name.Some? && StripKind(TextValue(ct.value.name.value)) != "" then
      KindNamed(StripKind(TextValue(ct.value.name.value)))
    else KindOther(if ct.Some? then ct.value.rowId else 0)
  }

  /** The record English row `k` contributes: none for row 0 or without a capitalised name record. */
  function DutyEntry(sheets: Sheets<Duty>, k: nat, upper: char -> char): (r: Option<(nat, DutyInfo)>)
    requires English in sheets && k < |sheets[English]|
    ensures r.Some? <==> sheets[English][k].rowId != 0 && Localised(sheets, sheets[English][k].rowId, DutyName, true, upper).Some?
    ensures r.Some? ==>
      && r.value.0 == sheets[English][k].rowId
      && Localised(sheets, r.value.0, DutyName, true, upper) == Some(r.value.1.name)
      && r.value.1.highEnd == sheets[English][k].row.highEnd
      && r.value.1.kind == KindOf(sheets[English][k].row.contentType)
  {
    var row := sheets[English][k];
    if row.rowId == 0 then None
    else
      assert HasRow(sheets[English], row.rowId) by { assert sheets[English][k].rowId == row.rowId; }
      match Localised(sheets, row.rowId, DutyName, true, upper)
      case None => None
      case Some(name) => Some((row.rowId, DutyInfo(name, row.row.highEnd, KindOf(row.row.contentType))))
  }

  function DutiesUpTo(sheets: Sheets<Duty>, upper: char -> char, k: nat): seq<(nat, DutyInfo)>
    requires English in sheets && k <= |sheets[English]|
  {
    if k == 0 then [] else Emit(DutiesUpTo(sheets, upper, k - 1), DutyEntry(sheets, k - 1, upper))
  }

  /** GenerateDuties' `DUTIES` table, in emission order. */
  method GenerateDuties(sheets: Sheets<Duty>, upper: char -> char) returns (duties: seq<(nat, DutyInfo)>)
    requires English in sheets
    ensures duties == DutiesUpTo(sheets, upper, |sheets[English]|)
  {
    duties := [];
    var k := 0;
    while k < |sheets[English]|
      invariant 0 <= k <= |sheets[English]|
      invariant duties == DutiesUpTo(sheets, upper, k)
    {
      var cfc := sheets[English][k];
      if cfc.rowId == 0 {
        k := k + 1;
        continue;
      }
      assert HasRow(sheets[English], cfc.rowId) by { assert sheets[English][k].rowId == cfc.rowId; }
      var name := GetLocalisedStruct(sheets, cfc.rowId, DutyName, true, upper);
      if name.None? {
        k := k + 1;
        continue;
      }
      var contentKind := KindOf(cfc.row.contentType);
      duties := duties + [(cfc.rowId, DutyInfo(name.value, cfc.row.highEnd, contentKind))];
      k := k + 1;
    }
  }

  /**
   * Soundness and completeness of the duty filter: every record is that of an English row
   * (so keyed by a row id other than 0 with a capitalised five-language name), in row order,
   * and every row that has a record contributes it.
   */
  lemma DutiesExactly(sheets: Sheets<Duty>, upper: char -> char, k: nat)
    requires English in sheets && k <= |sheets[English]|
    ensures forall e :: e in DutiesUpTo(sheets, upper, k) ==> exists j :: 0 <= j < k && DutyEntry(sheets, j, upper) == Some(e)
    ensures forall j :: 0 <= j < k && DutyEntry(sheets, j, upper).Some? ==> DutyEntry(sheets, j, upper).value in DutiesUpTo(sheets, upper, k)
  {
    DutiesFromRows(sheets, upper, k);
    DutiesFromEveryRow(sheets, upper, k);
  }

  lemma {:induction false} DutiesFromRows(sheets: Sheets<Duty>, upper: char -> char, k: nat)
    requires English in sheets && k <= |sheets[English]|
    ensures forall e :: e in DutiesUpTo(sheets, upper, k) ==> exists j :: 0 <= j < k && DutyEntry(sheets, j, upper) == Some(e)
  {
    if k > 0 {
      DutiesFromRows(sheets, upper, k - 1);
    }
  }

  lemma {:induction false} DutiesFromEveryRow(sheets: Sheets<Duty>, upper: char -> char, k: nat)
    requires English in sheets && k <= |sheets[English]|
    ensures forall j :: 0 <= j < k && DutyEntry(sheets, j, upper).Some? ==> DutyEntry(sheets, j, upper).value in DutiesUpTo(sheets, upper, k)
  {
    if k > 0 {
      DutiesFromEveryRow(sheets, upper, k - 1);
      var prev, last := DutiesUpTo(sheets, upper, k - 1), DutyEntry(sheets, k - 1, upper);
      assert DutiesUpTo(sheets, upper, k) == Emit(prev, last);
      EmitKeeps(prev, last);
    }
  }

  // ---------------------------------------------------------------------------
  // Jobs (ClassJob)
  // ---------------------------------------------------------------------------

  /** The fields of a ClassJob row the generator reads. */
  datatype ClassJob = ClassJob(nameEnglish: SeString, role: nat, jobIndex: nat)

  /** `ClassJob::Class(..)`, `ClassJob::Job(..)` or `ClassJob::NonCombat(..)`. */
  datatype JobValue = CombatClass(name: string) | CombatJob(name: string) | NonCombat(name: string)

  /** The record a ClassJob row contributes. */
  function JobEntry(row: SheetRow<ClassJob>): (r: Option<(nat, JobValue)>)
    ensures r.Some? <==> row.rowId != 0 && Without(TextValue(row.row.nameEnglish), ' ') != ""
    ensures r.Some? ==> r.value.0 == row.rowId && r.value.1.name == Without(TextValue(row.row.nameEnglish), ' ')
    ensures r.Some? ==> (r.value.1.NonCombat? <==> row.row.role == 0)
    ensures r.Some? ==> (r.value.1.CombatClass? <==> row.row.role != 0 && row.row.jobIndex == 0)
  {
    if row.rowId == 0 then None
    else
      var name := Without(TextValue(row.row.nameEnglish), ' ');
      if |name| == 0 then None
      else if row.row.role != 0 then
        Some((row.rowId, if row.row.jobIndex == 0 then CombatClass(name) else CombatJob(name)))
      else Some((row.rowId, NonCombat(name)))
  }

  function JobsUpTo(sheet: Sheet<ClassJob>, k: nat): seq<(nat, JobValue)>
    requires k <= |sheet|
  {
    if k == 0 then [] else Emit(JobsUpTo(sheet, k - 1), JobEntry(sheet[k - 1]))
  }

  /** GenerateJobs' `JOBS` table, in emission order. */
  method GenerateJobs(sheet: Sheet<ClassJob>) returns (jobs: seq<(nat, JobValue)>)
    ensures jobs == JobsUpTo(sheet, |sheet|)
  {
    jobs := [];
    var k := 0;
    while k < |sheet|
      invariant 0 <= k <= |sheet|
      invariant jobs == JobsUpTo(sheet, k)
    {
      var cj := sheet[k];
      k := k + 1;
      if cj.rowId == 0 {
        continue;
      }
      var name := Without(TextValue(cj.row.nameEnglish), ' ');
      if |name| <= 0 {
        continue;
      }
      var isCombat := cj.row.role != 0;
      var isClass := cj.row.jobIndex == 0;
      var value: JobValue;
      if isCombat {
        value := if isClass then CombatClass(name) else CombatJob(name);
      } else {
        value := NonCombat(name);
      }
      jobs := jobs + [(cj.rowId, value)];
    }
  }

  /** Every job record comes from a row of the sheet that passes the filter, in sheet order. */
  lemma {:induction false} JobsFromRows(sheet: Sheet<ClassJob>, k: nat)
    requires k <= |sheet|
    ensures |JobsUpTo(sheet, k)| <= k
    ensures forall e :: e in JobsUpTo(sheet, k) ==>
      exists j :: 0 <= j < k && JobEntry(sheet[j]) == Some(e)
    ensures forall j :: 0 <= j < k && JobEntry(sheet[j]).Some? ==> JobEntry(sheet[j]).value in JobsUpTo(sheet, k)
  {
    if k > 0 {
      JobsFromRows(sheet, k - 1);
      var prev := JobsUpTo(sheet, k - 1);
      assert JobsUpTo(sheet, k) == Emit(prev, JobEntry(sheet[k - 1]));
      forall e | e in JobsUpTo(sheet, k)
        ensures exists j :: 0 <= j < k && JobEntry(sheet[j]) == Some(e)
      {
        if e !in prev {
          assert JobEntry(sheet[k - 1]) == Some(e);
        }
      }
    }
  }

  // ---------------------------------------------------------------------------
  // Worlds, with the Chinese-server correction applied in place
  // ---------------------------------------------------------------------------

  /** The fields of a World row the generator reads and the correction writes. */
  datatype WorldRow = WorldRow(rowId: nat, name: SeString, isPublic: bool, userType: nat, dataCenter: nat)

  /** The fields of a WorldDCGroupType row the correction writes. */
  datatype DcRow = DcRow(rowId: nat, name: SeString, region: nat)

  /** A Chinese data centre: its display name, its id and the ids of its worlds. */
  datatype DcGroup = DcGroup(name: string, id: nat, worlds: seq<nat>)

  /** The Chinese data centres and their worlds (the worlds' display names are never read). */
  const CnGroups: seq<DcGroup> := [
    DcGroup("陆行鸟", 101, [1175, 1174, 1173, 1167, 1060, 1081, 1044, 1042]),
    DcGroup("莫古力", 102, [1121, 1166, 1113, 1076, 1176, 1171, 1170, 1172]),
    DcGroup("猫小胖", 103, [1179, 1178, 1177, 1169, 1106, 1045, 1043]),
    DcGroup("豆豆柴", 201, [1201, 1186, 1180, 1183, 1192, 1202, 1203, 1200])
  ]

  /** The region id the correction gives every Chinese data centre. */
  const CnRegion: nat := 5
  /** The user type the correction gives every Chinese world. */
  const CnUserType: nat := 10

  /** World id to data-centre id, after the first `w` worlds of group `g` (and all earlier groups). */
  function AssignedUpTo(g: nat, w: nat): map<nat, nat>
    requires g < |CnGroups| ==> w <= |CnGroups[g].worlds|
    requires g <= |CnGroups| && (g == |CnGroups| ==> w == 0)
    decreases g, w
  {
    if w > 0 then AssignedUpTo(g, w - 1)[CnGroups[g].worlds[w - 1] := CnGroups[g].id]
    else if g == 0 then map[]
    else AssignedUpTo(g - 1, |CnGroups[g - 1].worlds|)
  }

  /** Data-centre id to its new name, after the first `g` groups. */
  function RenamedUpTo(g: nat): map<nat, string>
    requires g <= |CnGroups|
  {
    if g == 0 then map[] else RenamedUpTo(g - 1)[CnGroups[g - 1].id := CnGroups[g - 1].name]
  }

  function PatchWorld(row: WorldRow, dcOf: map<nat, nat>): WorldRow {
    if row.rowId in dcOf then row.(isPublic := true, userType := CnUserType, dataCenter := dcOf[row.rowId]) else row
  }

  function PatchDc(row: DcRow, renamed: map<nat, string>): DcRow {
    if row.rowId in renamed then row.(name := [TextPayload(renamed[row.rowId])], region := CnRegion) else row
  }

  predicate HasWorld(rows: seq<WorldRow>, id: nat) {
    exists j :: 0 <= j < |rows| && rows[j].rowId == id
  }

  predicate HasDc(rows: seq<DcRow>, id: nat) {
    exists j :: 0 <= j < |rows| && rows[j].rowId == id
  }

  /** The rows group `g` of the correction writes exist. */
  predicate GroupPresent(worlds: seq<WorldRow>, dcs: seq<DcRow>, g: nat)
    requires g < |CnGroups|
  {
    HasDc(dcs, CnGroups[g].id) && forall v :: 0 <= v < |CnGroups[g].worlds| ==> HasWorld(worlds, CnGroups[g].worlds[v])
  }

  /** Every row the correction writes exists; otherwise it dereferences a null row and aborts. */
  predicate CnRowsPresent(worlds: seq<WorldRow>, dcs: seq<DcRow>) {
    forall g :: 0 <= g < |CnGroups| ==> GroupPresent(worlds, dcs, g)
  }

  predicate UniqueWorldIds(rows: seq<WorldRow>) {
    forall i, j :: 0 <= i < j < |rows| ==> rows[i].rowId != rows[j].rowId
  }

  predicate UniqueDcIds(rows: seq<DcRow>) {
    forall i, j :: 0 <= i < j < |rows| ==> rows[i].rowId != rows[j].rowId
  }

  /** `GetRow(id)` on a sheet: the index of the row with that id, as `idOf` reads it. */
  method FindRow<R>(rows: array<R>, id: nat, idOf: R -> nat) returns (r: Option<nat>)
    ensures r.Some? ==> r.value < rows.Length && idOf(rows[r.value]) == id
    ensures r.None? ==> forall j :: 0 <= j < rows.Length ==> idOf(rows[j]) != id
  {
    var j := 0;
    while j < rows.Length
      invariant 0 <= j <= rows.Length
      invariant forall i :: 0 <= i < j ==> idOf(rows[i]) != id
    {
      if idOf(rows[j]) == id {
        return Some(j);
      }
      j := j + 1;
    }
    return None;
  }

  /** The data-centre half of one group: rename the row and move it to the Chinese region. */
  method RenameDc(dcs: array<DcRow>, g: nat, ghost orig: seq<DcRow>) returns (ok: bool)
    requires g < |CnGroups| && |orig| == dcs.Length && UniqueDcIds(orig)
    requires forall j :: 0 <= j < dcs.Length ==> dcs[j] == PatchDc(orig[j], RenamedUpTo(g))
    modifies dcs
    ensures ok <==> HasDc(orig, CnGroups[g].id)
    ensures ok ==> forall j :: 0 <= j < dcs.Length ==> dcs[j] == PatchDc(orig[j], RenamedUpTo(g + 1))
  {
    var dc := CnGroups[g];
    var d := FindRow(dcs, dc.id, (row: DcRow) => row.rowId);
    if d.None? {
      assert forall j :: 0 <= j < dcs.Length ==> orig[j].rowId == dcs[j].rowId;
      return false;
    }
    var i := d.value;
    dcs[i] := dcs[i].(name := [TextPayload(dc.name)], region := CnRegion);
    assert orig[i].rowId == dc.id;
    return true;
  }

  /** The world half of one group: every world joins the data centre, public and of the Chinese user type. */
  method AssignWorlds(worlds: array<WorldRow>, g: nat, ghost orig: seq<WorldRow>) returns (ok: bool)
    requires g < |CnGroups| && |orig| == worlds.Length && UniqueWorldIds(orig)
    requires forall j :: 0 <= j < worlds.Length ==> worlds[j] == PatchWorld(orig[j], AssignedUpTo(g, 0))
    modifies worlds
    ensures ok <==> forall v :: 0 <= v < |CnGroups[g].worlds| ==> HasWorld(orig, CnGroups[g].worlds[v])
    ensures ok ==> forall j :: 0 <= j < worlds.Length ==> worlds[j] == PatchWorld(orig[j], AssignedUpTo(g + 1, 0))
  {
    var w := 0;
    while w < |CnGroups[g].worlds|
      invariant 0 <= w <= |CnGroups[g].worlds|
      invariant forall j :: 0 <= j < worlds.Length ==> worlds[j] == PatchWorld(orig[j], AssignedUpTo(g, w))
      invariant WorldsFound(orig, g, w)
    {
      var found := AssignWorld(worlds, g, w, orig);
      if !found {
        return false;
      }
      w := w + 1;
    }
    AssignedNextGroup(g);
    WorldsFoundEach(orig, g, w);
    return true;
  }

  /** The first `w` worlds of group `g` are all on the sheet. */
  predicate WorldsFound(rows: seq<WorldRow>, g: nat, w: nat)
    requires g < |CnGroups| && w <= |CnGroups[g].worlds|
  {
    w == 0 || (WorldsFound(rows, g, w - 1) && HasWorld(rows, CnGroups[g].worlds[w - 1]))
  }

  lemma {:induction false} WorldsFoundEach(rows: seq<WorldRow>, g: nat, w: nat)
    requires g < |CnGroups| && w <= |CnGroups[g].worlds|
    ensures WorldsFound(rows, g, w) <==> forall v :: 0 <= v < w ==> HasWorld(rows, CnGroups[g].worlds[v])
  {
    if w > 0 {
      WorldsFoundEach(rows, g, w - 1);
    }
  }

  /** The assignment before group g + 1 is the one after every world of group g. */
  lemma AssignedNextGroup(g: nat)
    requires g < |CnGroups|
    ensures AssignedUpTo(g + 1, 0) == AssignedUpTo(g, |CnGroups[g].worlds|)
  {
  }

  /** One pass of the loop: mark world `w` of group `g`, when the sheet has it. */
  method AssignWorld(worlds: array<WorldRow>, g: nat, w: nat, ghost orig: seq<WorldRow>) returns (found: bool)
    requires g < |CnGroups| && w < |CnGroups[g].worlds| && |orig| == worlds.Length && UniqueWorldIds(orig)
    requires forall j :: 0 <= j < worlds.Length ==> worlds[j] == PatchWorld(orig[j], AssignedUpTo(g, w))
    modifies worlds
    ensures found <==> HasWorld(orig, CnGroups[g].worlds[w])
    ensures found ==> forall j :: 0 <= j < worlds.Length ==> worlds[j] == PatchWorld(orig[j], AssignedUpTo(g, w + 1))
  {
    var dc := CnGroups[g];
    var id := dc.worlds[w];
    var at := FindRow(worlds, id, (row: WorldRow) => row.rowId);
    if at.None? {
      assert forall j :: 0 <= j < worlds.Length ==> orig[j].rowId == worlds[j].rowId;
      return false;
    }
    var i := at.value;
    assert orig[i].rowId == id;
    ghost var before := worlds[..];
    worlds[i] := worlds[i].(isPublic := true, userType := CnUserType, dataCenter := dc.id);
    AssignStep(orig, before, worlds[..], i, AssignedUpTo(g, w), dc.id);
    return true;
  }

  /** Writing one world row moves the sheet from one assignment to the next. */
  lemma AssignStep(orig: seq<WorldRow>, before: seq<WorldRow>, after: seq<WorldRow>, i: nat, dcOf: map<nat, nat>, dc: nat)
    requires |orig| == |before| && i < |orig| && UniqueWorldIds(orig)
    requires forall j :: 0 <= j < |orig| ==> before[j] == PatchWorld(orig[j], dcOf)
    requires after == before[i := before[i].(isPublic := true, userType := CnUserType, dataCenter := dc)]
    ensures forall j :: 0 <= j < |orig| ==> after[j] == PatchWorld(orig[j], dcOf[orig[i].rowId := dc])
  {
  }

  /**
   * ChangeWorldForCN: renames each Chinese data centre and moves it to region 5, then marks
   * each of its worlds public, of user type 10, and in that data centre. The sheet rows are
   * updated in place; a missing row aborts (`ok` false) part-way.
   */
  method ChangeWorldForCN(worlds: array<WorldRow>, dcs: array<DcRow>) returns (ok: bool)
    requires UniqueWorldIds(worlds[..]) && UniqueDcIds(dcs[..])
    modifies worlds, dcs
    ensures ok <==> CnRowsPresent(old(worlds[..]), old(dcs[..]))
    ensures ok ==> forall j :: 0 <= j < worlds.Length ==> worlds[j] == PatchWorld(old(worlds[j]), AssignedUpTo(|CnGroups|, 0))
    ensures ok ==> forall j :: 0 <= j < dcs.Length ==> dcs[j] == PatchDc(old(dcs[j]), RenamedUpTo(|CnGroups|))
  {
    ghost var worlds0 := worlds[..];
    ghost var dcs0 := dcs[..];
    var g := 0;
    while g < |CnGroups|
      invariant 0 <= g <= |CnGroups|
      invariant forall j :: 0 <= j < worlds.Length ==> worlds[j] == PatchWorld(worlds0[j], AssignedUpTo(g, 0))
      invariant forall j :: 0 <= j < dcs.Length ==> dcs[j] == PatchDc(dcs0[j], RenamedUpTo(g))
      invariant forall h :: 0 <= h < g ==> GroupPresent(worlds0, dcs0, h)
    {
      ok := RenameDc(dcs, g, dcs0);
      if !ok {
        assert !GroupPresent(worlds0, dcs0, g);
        return false;
      }
      ok := AssignWorlds(worlds, g, worlds0);
      if !ok {
        assert !GroupPresent(worlds0, dcs0, g);
        return false;
      }
      g := g + 1;
    }
    return true;
  }

  /** The record a (corrected) world row contributes: `World::<name>` keyed by its id. */
  function WorldEntry(row: WorldRow): (r: Option<(nat, string)>)
    ensures r.Some? <==> row.rowId != 0 && row.isPublic && row.userType != 0 && row.dataCenter != 0 && TextValue(row.name) != ""
    ensures r.Some? ==> r.value == (row.rowId, TextValue(row.name))
  {
    if row.rowId == 0 || !row.isPublic || row.userType == 0 || row.dataCenter == 0 then None
    else
      var name := TextValue(row.name);
      if |name| <= 0 then None else Some((row.rowId, name))
  }

  function WorldsUpTo(rows: seq<WorldRow>, k: nat): seq<(nat, string)>
    requires k <= |rows|
  {
    if k == 0 then [] else Emit(WorldsUpTo(rows, k - 1), WorldEntry(rows[k - 1]))
  }

  /** The filter loop of GenerateWorlds over the (corrected) world sheet. */
  method ListWorlds(worlds: array<WorldRow>) returns (r: seq<(nat, string)>)
    ensures r == WorldsUpTo(worlds[..], worlds.Length)
  {
    r := [];
    var k := 0;
    while k < worlds.Length
      invariant 0 <= k <= worlds.Length
      invariant r == WorldsUpTo(worlds[..], k)
    {
      var world := worlds[k];
      k := k + 1;
      if world.rowId == 0 || !world.isPublic || world.userType == 0 || world.dataCenter == 0 {
        continue;
      }
      var name := TextValue(world.name);
      if |name| <= 0 {
        continue;
      }
      r := r + [(world.rowId, name)];
    }
  }

  /** GenerateWorlds: the correction, then the filter; None where the correction aborts. */
  method GenerateWorlds(worlds: array<WorldRow>, dcs: array<DcRow>) returns (r: Option<seq<(nat, string)>>)
    requires UniqueWorldIds(worlds[..]) && UniqueDcIds(dcs[..])
    modifies worlds, dcs
    ensures r.Some? <==> CnRowsPresent(old(worlds[..]), old(dcs[..]))
    ensures r.Some? ==> r.value == WorldsUpTo(PatchedWorlds(old(worlds[..])), worlds.Length)
  {
    var ok := ChangeWorldForCN(worlds, dcs);
    if !ok {
      return None;
    }
    assert worlds[..] == PatchedWorlds(old(worlds[..]));
    var listed := ListWorlds(worlds);
    return Some(listed);
  }

  /** The world sheet after the correction. */
  function PatchedWorlds(rows: seq<WorldRow>): (r: seq<WorldRow>)
    ensures |r| == |rows|
    ensures forall j :: 0 <= j < |rows| ==> r[j] == PatchWorld(rows[j], AssignedUpTo(|CnGroups|, 0))
  {
    seq(|rows|, j requires 0 <= j < |rows| => PatchWorld(rows[j], AssignedUpTo(|CnGroups|, 0)))
  }

  /** Every world record comes from a row of the sheet that passes the filter. */
  lemma {:induction false} WorldsFromRows(rows: seq<WorldRow>, k: nat)
    requires k <= |rows|
    ensures forall e :: e in WorldsUpTo(rows, k) ==> exists j :: 0 <= j < k && WorldEntry(rows[j]) == Some(e)
    ensures forall j :: 0 <= j < k && WorldEntry(rows[j]).Some? ==> WorldEntry(rows[j]).value in WorldsUpTo(rows, k)
  {
    if k > 0 {
      WorldsFromRows(rows, k - 1);
    }
  }

  /** After the correction, every Chinese world with a non-empty name and an id other than 0 is listed. */
  lemma CorrectedWorldListed(rows: seq<WorldRow>, j: nat)
    requires j < |rows| && rows[j].rowId in AssignedUpTo(|CnGroups|, 0)
    requires rows[j].rowId != 0 && TextValue(rows[j].name) != ""
    ensures (rows[j].rowId, TextValue(rows[j].name)) in WorldsUpTo(PatchedWorlds(rows), |rows|)
  {
    var patched := PatchedWorlds(rows);
    AssignedNonZero(|CnGroups|, 0);
    WorldsFromRows(patched, |rows|);
    assert WorldEntry(patched[j]).Some?;
  }

  /** Every data centre the correction assigns has an id other than 0. */
  lemma {:induction false} AssignedNonZero(g: nat, w: nat)
    requires g <= |CnGroups| && (g < |CnGroups| ==> w <= |CnGroups[g].worlds|) && (g == |CnGroups| ==> w == 0)
    ensures forall id :: id in AssignedUpTo(g, w) ==> AssignedUpTo(g, w)[id] != 0
    decreases g, w
  {
    if w > 0 {
      AssignedNonZero(g, w - 1);
    } else if g > 0 {
      AssignedNonZero(g - 1, |CnGroups[g - 1].worlds|);
    }
  }

  // ---------------------------------------------------------------------------
  // Treasure maps (TreasureHuntRank)
  // ---------------------------------------------------------------------------

  /** The fields of a TreasureHuntRank row the generator reads; the item links may not resolve. */
  datatype TreasureRank = TreasureRank(texture: nat, keyItemName: Option<SeString>, itemName: Option<SeString>)

  /** GetMapName: the key item's name, or the item's name when that is null or empty. */
  function MapName(r: TreasureRank): (n: Option<SeString>)
    ensures r.keyItemName.Some? && TextValue(r.keyItemName.value) != "" ==> n == r.keyItemName
    ensures r.keyItemName.None? || TextValue(r.keyItemName.value) == "" ==> n == r.itemName
  {
    if r.keyItemName.None? || TextValue(r.keyItemName.value) == "" then r.itemName else r.keyItemName
  }

  /** The fixed record for key 0. */
  const AllLevels: seq<Line> := [
    Line("en", "All Levels"), Line("ja", "レベルを指定しない"), Line("de", "Jede Stufe"),
    Line("fr", "Tous niveaux"), Line("zh", "所有等级")
  ]

  /** The record English row `k` contributes: none for a textured row or without a name record. */
  function MapEntry(sheets: Sheets<TreasureRank>, k: nat, upper: char -> char): Option<seq<Line>>
    requires English in sheets && k < |sheets[English]|
  {
    var row := sheets[English][k];
    if row.row.texture != 0 then None
    else
      assert HasRow(sheets[English], row.rowId) by { assert sheets[English][k].rowId == row.rowId; }
      Localised(sheets, row.rowId, MapName, false, upper)
  }

  /** The records of the first `k` rows, before keys are attached. */
  function MapsUpTo(sheets: Sheets<TreasureRank>, upper: char -> char, k: nat): seq<seq<Line>>
    requires English in sheets && k <= |sheets[English]|
  {
    if k == 0 then [] else Emit(MapsUpTo(sheets, upper, k - 1), MapEntry(sheets, k - 1, upper))
  }

  /**
   * GenerateTreasureMaps: the fixed record under key 0, then each kept row under the next
   * key of the counter `i`, which advances only when a record is emitted. `upper` is unused
   * (no capitalisation) and only completes the call.
   */
  method GenerateTreasureMaps(sheets: Sheets<TreasureRank>, upper: char -> char) returns (maps: seq<(nat, seq<Line>)>)
    requires English in sheets
    ensures var records := [AllLevels] + MapsUpTo(sheets, upper, |sheets[English]|);
      |maps| == |records| && forall j :: 0 <= j < |maps| ==> maps[j] == (j, records[j])
  {
    maps := [(0, AllLevels)];
    var i := 1;
    var k := 0;
    while k < |sheets[English]|
      invariant 0 <= k <= |sheets[English]|
      invariant i == |maps|
      invariant var records := [AllLevels] + MapsUpTo(sheets, upper, k);
        |maps| == |records| && forall j :: 0 <= j < |maps| ==> maps[j] == (j, records[j])
    {
      var row := sheets[English][k];
      if row.row.texture != 0 {
        k := k + 1;
        continue;
      }
      assert HasRow(sheets[English], row.rowId) by { assert sheets[English][k].rowId == row.rowId; }
      var name := GetLocalisedStruct(sheets, row.rowId, MapName, false, upper);
      if name.Some? {
        maps := maps + [(i, name.value)];
        i := i + 1;
      }
      k := k + 1;
    }
  }

  /** Every treasure-map record is a five-language record of an untextured row. */
  lemma {:induction false} MapsFromRows(sheets: Sheets<TreasureRank>, upper: char -> char, k: nat)
    requires English in sheets && k <= |sheets[English]|
    ensures |MapsUpTo(sheets, upper, k)| <= k
    ensures forall m :: m in MapsUpTo(sheets, upper, k) ==>
      exists j :: 0 <= j < k && sheets[English][j].row.texture == 0 && MapEntry(sheets, j, upper) == Some(m)
  {
    if k > 0 {
      MapsFromRows(sheets, upper, k - 1);
    }
  }
}

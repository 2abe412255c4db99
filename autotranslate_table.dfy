/**
 * The auto-translate table of the locale-table generator (GenerateAutoTranslate): every
 * Completion row either names its own text (direct lookup) or carries a selector naming
 * rows and columns of another sheet; each selected row becomes a five-language record
 * when every language has text in one of the candidate columns.
 */
module AutoTranslateTable {
  import opened Wrappers
  import opened SeStringText
  import opened Selector
  import opened Generator

  const TwoTo31: int := 0x8000_0000
  const TwoTo32: int := 0x1_0000_0000

  /** C#'s unchecked `(int)` cast of a `uint`. */
  function Int32Of(u: nat): (r: int)
    requires u < TwoTo32
    ensures -TwoTo31 <= r < TwoTo31
    ensures r >= 0 <==> u < TwoTo31
    ensures r >= 0 ==> r == u
  {
    if u < TwoTo31 then u else u - TwoTo32
  }

  /** C#'s unchecked `int + 1`. */
  function Int32Succ(i: int): (r: int)
    requires -TwoTo31 <= i < TwoTo31
    ensures -TwoTo31 <= r < TwoTo31
    ensures i < TwoTo31 - 1 ==> r == i + 1
  {
    if i == TwoTo31 - 1 then -TwoTo31 else i + 1
  }

  /** Why generation stops: every one of these is an exception nothing catches. */
  datatype Abort =
    | SelectorSyntax(lookup: string)   // `ParseOrThrow` on an ill-formed selector
    | SelectorOverflow(lookup: string) // `uint.Parse` on an oversized number
    | UnknownSheet(name: string)       // no generated sheet type of that name
    | MissingSheet(name: string)       // a language without that sheet
    | NegativeIndex                    // `Index` built from a negative `int`
    | UnreadableColumn                 // `ReadColumn` past the row's columns, or not a string

  // ---------------------------------------------------------------------------
  // Resolution: selector parts to row ranges and candidate columns
  // ---------------------------------------------------------------------------

  /** A half-open run of row ids, `start..end`, as `Range` holds it. */
  datatype RowRange = RowRange(start: nat, end: nat)

  /** The row ranges and candidate columns a selector resolves to. */
  datatype Query = Query(rows: seq<RowRange>, columns: seq<int>)

  /**
   * The range `..` used when no part selects rows. Its end is `^0`, whose `Value` is 0,
   * so the row loop, which reads `End.Value`, visits nothing.
   */
  const WholeSheet: RowRange := RowRange(0, 0)

  /** `start..end` from two `int`s: converting a negative `int` to an `Index` throws. */
  function MakeRange(start: int, end: int): Result<RowRange, Abort> {
    if start < 0 || end < 0 then Err(NegativeIndex) else Ok(RowRange(start, end))
  }

  /** The range one parsed part adds, if it selects rows. */
  function PartRange(p: SelectorPart): Option<Result<RowRange, Abort>>
    requires PartInRange(p)
  {
    match p
    case IndexRange(a, b) => Some(MakeRange(Int32Of(a), Int32Of((b + 1) % TwoTo32)))
    case SingleRow(r) => Some(MakeRange(Int32Of(r), Int32Succ(Int32Of(r))))
    case ColumnSpecifier(_) => None
    case NounMarker => None
  }

  predicate AllInRange(parts: seq<SelectorPart>) {
    forall i :: 0 <= i < |parts| ==> PartInRange(parts[i])
  }

  /** The ranges and columns collected from the first `k` parts, in part order. */
  function Collect(parts: seq<SelectorPart>, k: nat): Result<Query, Abort>
    requires AllInRange(parts) && k <= |parts|
  {
    if k == 0 then Ok(Query([], []))
    else
      match Collect(parts, k - 1)
      case Err(e) => Err(e)
      case Ok(q) =>
        match parts[k - 1]
        case ColumnSpecifier(c) => Ok(Query(q.rows, q.columns + [Int32Of(c)]))
        case NounMarker => Ok(q)
        case _ =>
          match PartRange(parts[k - 1]).value
          case Err(e) => Err(e)
          case Ok(range) => Ok(Query(q.rows + [range], q.columns))
  }

  /** Once a part aborts resolution, the later parts change nothing. */
  lemma {:induction false} CollectErrSticks(parts: seq<SelectorPart>, k: nat, n: nat)
    requires AllInRange(parts) && k <= n <= |parts| && Collect(parts, k).Err?
    ensures Collect(parts, n) == Collect(parts, k)
  {
    if n > k {
      CollectErrSticks(parts, k, n - 1);
    }
  }

  /** The query with the defaults applied: column 0, and the whole-sheet range. */
  function WithDefaults(q: Query): (r: Query)
    ensures |r.rows| >= 1 && |r.columns| >= 1
  {
    Query(if |q.rows| == 0 then [WholeSheet] else q.rows,
          if |q.columns| == 0 then [0] else q.columns)
  }

  function Resolve(parts: Option<seq<SelectorPart>>): Result<Query, Abort>
    requires parts.Some? ==> AllInRange(parts.value)
  {
    if parts.None? then Ok(WithDefaults(Query([], [])))
    else
      match Collect(parts.value, |parts.value|)
      case Err(e) => Err(e)
      case Ok(q) => Ok(WithDefaults(q))
  }

  /** The `foreach`/`switch` over the parts, then the two defaults. */
  method ResolveSelector(parts: Option<seq<SelectorPart>>) returns (r: Result<Query, Abort>)
    requires parts.Some? ==> AllInRange(parts.value)
    ensures r == Resolve(parts)
  {
    var columns: seq<int> := [];
    var rows: seq<RowRange> := [];
    if parts.Some? {
      var ps := parts.value;
      var k := 0;
      while k < |ps|
        invariant 0 <= k <= |ps|
        invariant Collect(ps, k) == Ok(Query(rows, columns))
      {
        match ps[k] {
          case IndexRange(a, b) =>
            var start := Int32Of(a);
            var end := Int32Of((b + 1) % TwoTo32);
            if start < 0 || end < 0 {
              CollectErrSticks(ps, k + 1, |ps|);
              return Err(NegativeIndex);
            }
            rows := rows + [RowRange(start, end)];
          case SingleRow(row) =>
            var idx := Int32Of(row);
            if idx < 0 || Int32Succ(idx) < 0 {
              CollectErrSticks(ps, k + 1, |ps|);
              return Err(NegativeIndex);
            }
            rows := rows + [RowRange(idx, Int32Succ(idx))];
          case ColumnSpecifier(c) =>
            columns := columns + [Int32Of(c)];
          case NounMarker =>
        }
        k := k + 1;
      }
    }
    ghost var collected := Query(rows, columns);
    assert parts.Some? ==> Collect(parts.value, |parts.value|) == Ok(collected);
    if |columns| == 0 {
      columns := columns + [0];
    }
    if |rows| == 0 {
      rows := rows + [WholeSheet];
    }
    assert Query(rows, columns) == WithDefaults(collected);
    return Ok(Query(rows, columns));
  }

  /** Row id `i` is one the row loop visits for range `r`. */
  predicate Visits(r: RowRange, i: nat) {
    r.start <= i < r.end
  }

  /**
   * An inclusive range `a-b` with both ends below 2^31 - 1 selects exactly the rows
   * a, a+1, ..., b.
   */
  lemma RangeInclusive(a: nat, b: nat, i: nat)
    requires b < TwoTo31 - 1 && a <= b
    ensures PartRange(IndexRange(a, b)) == Some(Ok(RowRange(a, b + 1)))
    ensures Visits(RowRange(a, b + 1), i) <==> a <= i <= b
  {
  }

  /** A single row `r` below 2^31 - 1 selects exactly row r. */
  lemma SingleRowSelectsOne(r: nat, i: nat)
    requires r < TwoTo31 - 1
    ensures PartRange(SingleRow(r)) == Some(Ok(RowRange(r, r + 1)))
    ensures Visits(RowRange(r, r + 1), i) <==> i == r
  {
  }

  /**
   * The wrap-arounds of the unchecked casts: an end of 4294967295 wraps to an empty range,
   * and any other end of 2^31 - 1 or more, or a start of 2^31 or more, throws.
   */
  lemma RangeWrapAround(a: nat, b: nat)
    requires a <= MaxU32 && b <= MaxU32
    ensures b == MaxU32 && a < TwoTo31 ==> PartRange(IndexRange(a, b)) == Some(Ok(RowRange(a, 0)))
    ensures (a >= TwoTo31 || TwoTo31 - 1 <= b < MaxU32) ==> PartRange(IndexRange(a, b)) == Some(Err(NegativeIndex))
  {
  }

  /** The parts with every noun marker dropped. */
  function WithoutNouns(parts: seq<SelectorPart>): (r: seq<SelectorPart>)
    ensures NounMarker !in r && |r| <= |parts|
    ensures AllInRange(parts) ==> AllInRange(r)
  {
    if |parts| == 0 then []
    else if parts[0] == NounMarker then WithoutNouns(parts[1..])
    else [parts[0]] + WithoutNouns(parts[1..])
  }

  /** Resolution of the parts from index `k` on, starting from query `q`. */
  function CollectFrom(parts: seq<SelectorPart>, q: Query): Result<Query, Abort>
    requires AllInRange(parts)
  {
    if |parts| == 0 then Ok(q)
    else
      match parts[0]
      case ColumnSpecifier(c) => CollectFrom(parts[1..], Query(q.rows, q.columns + [Int32Of(c)]))
      case NounMarker => CollectFrom(parts[1..], q)
      case _ =>
        match PartRange(parts[0]).value
        case Err(e) => Err(e)
        case Ok(range) => CollectFrom(parts[1..], Query(q.rows + [range], q.columns))
  }

  lemma {:induction false} CollectSplit(parts: seq<SelectorPart>, k: nat)
    requires AllInRange(parts) && k <= |parts|
    ensures match Collect(parts, k)
            case Err(e) => CollectFrom(parts, Query([], [])) == Err(e)
            case Ok(q) => CollectFrom(parts, Query([], [])) == CollectFrom(parts[k..], q)
  {
    if k > 0 {
      CollectSplit(parts, k - 1);
      assert parts[k - 1..][1..] == parts[k..];
      if Collect(parts, k - 1).Err? {
        assert Collect(parts, k) == Collect(parts, k - 1);
      }
    }
  }

  lemma CollectIsCollectFrom(parts: seq<SelectorPart>)
    requires AllInRange(parts)
    ensures Collect(parts, |parts|) == CollectFrom(parts, Query([], []))
  {
    CollectSplit(parts, |parts|);
    assert parts[|parts|..] == [];
  }

  lemma {:induction false} CollectFromNouns(parts: seq<SelectorPart>, q: Query)
    requires AllInRange(parts)
    ensures CollectFrom(parts, q) == CollectFrom(WithoutNouns(parts), q)
  {
    if |parts| > 0 {
      if parts[0] == NounMarker {
        CollectFromNouns(parts[1..], q);
      } else {
        var w := WithoutNouns(parts);
        assert w[0] == parts[0] && w[1..] == WithoutNouns(parts[1..]);
        match parts[0]
        case ColumnSpecifier(c) =>
          CollectFromNouns(parts[1..], Query(q.rows, q.columns + [Int32Of(c)]));
        case SingleRow(_) | IndexRange(_, _) =>
          match PartRange(parts[0]).value
          case Err(e) =>
          case Ok(range) => CollectFromNouns(parts[1..], Query(q.rows + [range], q.columns));
      }
    }
  }

  /** Noun markers have no effect on resolution. */
  lemma NounIgnored(parts: seq<SelectorPart>)
    requires AllInRange(parts)
    ensures Resolve(Some(parts)) == Resolve(Some(WithoutNouns(parts)))
  {
    CollectIsCollectFrom(parts);
    CollectIsCollectFrom(WithoutNouns(parts));
    CollectFromNouns(parts, Query([], []));
  }

  /** Collected columns are the column parts' values in order; collected ranges one per row part. */
  lemma {:induction false} CollectColumns(parts: seq<SelectorPart>, k: nat)
    requires AllInRange(parts) && k <= |parts|
    ensures Collect(parts, k).Ok? ==> Collect(parts, k).value.columns == ColumnsOf(parts[..k])
    ensures Collect(parts, k).Ok? ==> |Collect(parts, k).value.rows| == RowPartCount(parts[..k])
  {
    if k > 0 {
      CollectColumns(parts, k - 1);
      assert parts[..k] == parts[..k - 1] + [parts[k - 1]];
      ColumnsOfAppend(parts[..k - 1], parts[k - 1]);
    }
  }

  /** The values of the column parts, converted to `int`, in order. */
  function ColumnsOf(parts: seq<SelectorPart>): seq<int>
    requires AllInRange(parts)
  {
    if |parts| == 0 then []
    else
      var last := parts[|parts| - 1];
      ColumnsOf(parts[..|parts| - 1]) + (if last.ColumnSpecifier? then [Int32Of(last.column)] else [])
  }

  function RowPartCount(parts: seq<SelectorPart>): nat {
    if |parts| == 0 then 0
    else
      var last := parts[|parts| - 1];
      RowPartCount(parts[..|parts| - 1]) + (if last.SingleRow? || last.IndexRange? then 1 else 0)
  }

  lemma ColumnsOfAppend(parts: seq<SelectorPart>, p: SelectorPart)
    requires AllInRange(parts) && PartInRange(p)
    ensures AllInRange(parts + [p])
    ensures ColumnsOf(parts + [p]) == ColumnsOf(parts) + (if p.ColumnSpecifier? then [Int32Of(p.column)] else [])
    ensures RowPartCount(parts + [p]) == RowPartCount(parts) + (if p.SingleRow? || p.IndexRange? then 1 else 0)
  {
    assert (parts + [p])[..|parts|] == parts;
  }

  /**
   * The resolved columns are the column parts in order, or `[0]` without any; with no
   * row part the only range is the empty whole-sheet range.
   */
  lemma ResolveDefaults(parts: seq<SelectorPart>)
    requires AllInRange(parts)
    ensures Resolve(Some(parts)).Ok? ==>
      && Resolve(Some(parts)).value.columns == (if ColumnsOf(parts) == [] then [0] else ColumnsOf(parts))
      && (RowPartCount(parts) == 0 ==> Resolve(Some(parts)).value.rows == [WholeSheet])
  {
    CollectColumns(parts, |parts|);
    assert parts[..|parts|] == parts;
  }

  // ---------------------------------------------------------------------------
  // Extraction: walking the selected rows in all five languages
  // ---------------------------------------------------------------------------

  /** A cell as `ReadColumn<SeString>` sees it. */
  datatype Cell = StringCell(value: SeString) | OtherCell

  /** A row of a sheet opened by name, with its column values. */
  datatype RawRow = RawRow(rowId: nat, cells: seq<Cell>)
  type RawSheet = seq<RawRow>

  /**
   * Sheets addressable by their generated type name; each holds the sheet per language,
   * and a language without a key is one whose sheet did not load.
   */
  type Workbook = map<string, map<Language, RawSheet>>

  /** `validRows.Contains(i)`: the English sheet has a row with that id. */
  predicate ValidRow(sheet: RawSheet, i: nat) {
    exists k :: 0 <= k < |sheet| && sheet[k].rowId == i
  }

  /** `parsers.FirstOrDefault(parser => parser.RowId == i)`. */
  function FindRow(sheet: RawSheet, i: nat): (r: Option<RawRow>)
    ensures r.Some? ==> r.value.rowId == i && r.value in sheet
    ensures r.None? ==> !ValidRow(sheet, i)
  {
    if |sheet| == 0 then None
    else if sheet[0].rowId == i then Some(sheet[0])
    else
      FindRow(sheet[1..], i)
  }

  /** `ReadColumn<SeString>(col)!.TextValue()` with quotes escaped; a failed read throws. */
  function ColumnText(row: RawRow, col: int): Result<string, Abort> {
    if col < 0 || col >= |row.cells| then Err(UnreadableColumn)
    else
      match row.cells[col]
      case OtherCell => Err(UnreadableColumn)
      case StringCell(s) => Ok(Escape(TextValue(s)))
  }

  /**
   * The first candidate column, in order, whose text is not empty. Columns after it are
   * never read, so an unreadable one there does no harm.
   */
  function FirstText(row: RawRow, columns: seq<int>): (r: Result<Option<string>, Abort>)
    ensures r.Ok? && r.value.Some? ==>
      r.value.value != "" && exists k :: 0 <= k < |columns| && FirstTextAt(row, columns, k, r.value.value)
    ensures r.Ok? && r.value.None? ==> forall k :: 0 <= k < |columns| ==> ColumnText(row, columns[k]) == Ok("")
  {
    if |columns| == 0 then Ok(None)
    else
      match ColumnText(row, columns[0])
      case Err(e) => Err(e)
      case Ok(text) =>
        if |text| > 0 then
          assert FirstTextAt(row, columns, 0, text);
          Ok(Some(text))
        else
          var r := FirstText(row, columns[1..]);
          assert r.Ok? && r.value.Some? ==> exists k :: 0 <= k < |columns| && FirstTextAt(row, columns, k, r.value.value) by {
            if r.Ok? && r.value.Some? {
              var k :| 0 <= k < |columns[1..]| && FirstTextAt(row, columns[1..], k, r.value.value);
              assert FirstTextAt(row, columns, k + 1, r.value.value) by {
                forall j | 0 <= j < k + 1 ensures ColumnText(row, columns[j]) == Ok("") {
                  if j > 0 { assert columns[j] == columns[1..][j - 1]; }
                }
              }
            }
          }
          assert r.Ok? && r.value.None? ==> forall k :: 0 <= k < |columns| ==> ColumnText(row, columns[k]) == Ok("") by {
            if r.Ok? && r.value.None? {
              forall k | 0 <= k < |columns| ensures ColumnText(row, columns[k]) == Ok("") {
                if k > 0 { assert columns[k] == columns[1..][k - 1]; }
              }
            }
          }
          r
  }

  /** Column `k` holds `text`, which is not empty, and every earlier candidate column is empty. */
  predicate FirstTextAt(row: RawRow, columns: seq<int>, k: int, text: string) {
    && 0 <= k < |columns|
    && ColumnText(row, columns[k]) == Ok(text)
    && forall j :: 0 <= j < k ==> ColumnText(row, columns[j]) == Ok("")
  }

  /** What one language contributes for row `i`: nothing when its sheet lacks the row. */
  function LanguageText(sheet: RawSheet, i: nat, columns: seq<int>): Result<Option<string>, Abort> {
    match FindRow(sheet, i)
    case None => Ok(None)
    case Some(row) => FirstText(row, columns)
  }

  /** The lines of the first `k` languages for row `i`, in language order. */
  function LinesFor(sheets: seq<RawSheet>, i: nat, columns: seq<int>, k: nat): (r: Result<seq<Line>, Abort>)
    requires |sheets| == |Languages| && k <= |Languages|
    ensures r.Ok? ==> |r.value| <= k
  {
    if k == 0 then Ok([])
    else
      match LinesFor(sheets, i, columns, k - 1)
      case Err(e) => Err(e)
      case Ok(lines) =>
        match LanguageText(sheets[k - 1], i, columns)
        case Err(e) => Err(e)
        case Ok(None) => Ok(lines)
        case Ok(Some(text)) => Ok(lines + [Line(Key(Languages[k - 1]), text)])
  }

  lemma {:induction false} LinesForErrSticks(sheets: seq<RawSheet>, i: nat, columns: seq<int>, k: nat, n: nat)
    requires |sheets| == |Languages| && k <= n <= |Languages| && LinesFor(sheets, i, columns, k).Err?
    ensures LinesFor(sheets, i, columns, n) == LinesFor(sheets, i, columns, k)
  {
    if n > k {
      LinesForErrSticks(sheets, i, columns, k, n - 1);
    }
  }

  /** A record of the auto-translate table, keyed by (group, row). */
  datatype Entry = Entry(group: nat, row: nat, lines: seq<Line>)

  /** Row `i`: skipped unless the English sheet has it; kept only with five lines. */
  function RowEntry(group: nat, sheets: seq<RawSheet>, i: nat, columns: seq<int>): Result<Option<Entry>, Abort>
    requires |sheets| == |Languages|
  {
    if !ValidRow(sheets[0], i) then Ok(None)
    else
      match LinesFor(sheets, i, columns, |Languages|)
      case Err(e) => Err(e)
      case Ok(lines) => if |lines| != LanguageCount then Ok(None) else Ok(Some(Entry(group, i, lines)))
  }

  function Append(acc: Result<seq<Entry>, Abort>, e: Result<Option<Entry>, Abort>): Result<seq<Entry>, Abort> {
    match acc
    case Err(err) => Err(err)
    case Ok(es) =>
      match e
      case Err(err) => Err(err)
      case Ok(None) => Ok(es)
      case Ok(Some(entry)) => Ok(es + [entry])
  }

  /** The records of rows `range.start` up to (not including) `j`. */
  function RangeEntries(group: nat, sheets: seq<RawSheet>, range: RowRange, columns: seq<int>, j: nat): Result<seq<Entry>, Abort>
    requires |sheets| == |Languages|
    decreases j
  {
    if j <= range.start then Ok([])
    else Append(RangeEntries(group, sheets, range, columns, j - 1), RowEntry(group, sheets, j - 1, columns))
  }

  lemma {:induction false} RangeErrSticks(group: nat, sheets: seq<RawSheet>, range: RowRange, columns: seq<int>, j: nat, n: nat)
    requires |sheets| == |Languages| && j <= n && RangeEntries(group, sheets, range, columns, j).Err?
    ensures RangeEntries(group, sheets, range, columns, n) == RangeEntries(group, sheets, range, columns, j)
    decreases n
  {
    if n > j {
      RangeErrSticks(group, sheets, range, columns, j, n - 1);
    }
  }

  function Concat(acc: Result<seq<Entry>, Abort>, more: Result<seq<Entry>, Abort>): Result<seq<Entry>, Abort> {
    match acc
    case Err(err) => Err(err)
    case Ok(es) =>
      match more
      case Err(err) => Err(err)
      case Ok(ms) => Ok(es + ms)
  }

  /** The records of the first `k` ranges of a query. */
  function QueryEntries(group: nat, sheets: seq<RawSheet>, q: Query, k: nat): Result<seq<Entry>, Abort>
    requires |sheets| == |Languages| && k <= |q.rows|
  {
    if k == 0 then Ok([])
    else
      var r := q.rows[k - 1];
      Concat(QueryEntries(group, sheets, q, k - 1), RangeEntries(group, sheets, r, q.columns, RangeStop(r)))
  }

  lemma {:induction false} QueryErrSticks(group: nat, sheets: seq<RawSheet>, q: Query, k: nat, n: nat)
    requires |sheets| == |Languages| && k <= n <= |q.rows| && QueryEntries(group, sheets, q, k).Err?
    ensures QueryEntries(group, sheets, q, n) == QueryEntries(group, sheets, q, k)
  {
    if n > k {
      QueryErrSticks(group, sheets, q, k, n - 1);
    }
  }

  /** The last index a range's row loop stops at. */
  function RangeStop(r: RowRange): nat {
    if r.end < r.start then r.start else r.end
  }

  /** The per-language text for one row: `foreach col` with `break` on the first text. */
  method ReadLanguage(sheet: RawSheet, i: nat, columns: seq<int>) returns (r: Result<Option<string>, Abort>)
    ensures r == LanguageText(sheet, i, columns)
  {
    var c := 0;
    while c < |columns|
      invariant 0 <= c <= |columns|
      invariant FindRow(sheet, i).None? || FirstText(FindRow(sheet, i).value, columns) == FirstText(FindRow(sheet, i).value, columns[c..])
    {
      var rowParser := FindRow(sheet, i);
      if rowParser.Some? {
        var name := ColumnText(rowParser.value, columns[c]);
        if name.Err? {
          return Err(name.error);
        }
        if |name.value| > 0 {
          return Ok(Some(name.value));
        }
        assert columns[c..][1..] == columns[c + 1..];
      }
      c := c + 1;
    }
    if FindRow(sheet, i).Some? {
      assert columns[c..] == [];
    }
    return Ok(None);
  }

  /** One selected row: counts the languages that produced a line. */
  method ExtractRow(group: nat, sheets: seq<RawSheet>, i: nat, columns: seq<int>) returns (r: Result<Option<Entry>, Abort>)
    requires |sheets| == |Languages|
    ensures r == RowEntry(group, sheets, i, columns)
  {
    if !ValidRow(sheets[0], i) {
      return Ok(None);
    }
    var lines: seq<Line> := [];
    var count := 0;
    var k := 0;
    while k < |Languages|
      invariant 0 <= k <= |Languages|
      invariant LinesFor(sheets, i, columns, k) == Ok(lines)
      invariant count == |lines|
    {
      var text := ReadLanguage(sheets[k], i, columns);
      if text.Err? {
        LinesForErrSticks(sheets, i, columns, k + 1, |Languages|);
        return Err(text.error);
      }
      if text.value.Some? {
        lines := lines + [Line(Key(Languages[k]), text.value.value)];
        count := count + 1;
      }
      k := k + 1;
    }
    if count != LanguageCount {
      return Ok(None);
    }
    return Ok(Some(Entry(group, i, lines)));
  }

  /** The row loop over one range. */
  method ExtractRange(group: nat, sheets: seq<RawSheet>, range: RowRange, columns: seq<int>) returns (r: Result<seq<Entry>, Abort>)
    requires |sheets| == |Languages|
    ensures r == RangeEntries(group, sheets, range, columns, RangeStop(range))
  {
    var found: seq<Entry> := [];
    var i := range.start;
    while i < range.end
      invariant range.start <= i <= RangeStop(range)
      invariant RangeEntries(group, sheets, range, columns, i) == Ok(found)
      decreases range.end - i
    {
      var e := ExtractRow(group, sheets, i, columns);
      if e.Err? {
        RangeErrSticks(group, sheets, range, columns, i + 1, RangeStop(range));
        return Err(e.error);
      }
      if e.value.Some? {
        found := found + [e.value.value];
      }
      i := i + 1;
    }
    return Ok(found);
  }

  /** The row loops over every range of the query, in order. */
  method ExtractQuery(group: nat, sheets: seq<RawSheet>, q: Query) returns (r: Result<seq<Entry>, Abort>)
    requires |sheets| == |Languages|
    ensures r == QueryEntries(group, sheets, q, |q.rows|)
  {
    var entries: seq<Entry> := [];
    var k := 0;
    while k < |q.rows|
      invariant 0 <= k <= |q.rows|
      invariant QueryEntries(group, sheets, q, k) == Ok(entries)
    {
      var found := ExtractRange(group, sheets, q.rows[k], q.columns);
      if found.Err? {
        QueryErrSticks(group, sheets, q, k + 1, |q.rows|);
        return Err(found.error);
      }
      entries := entries + found.value;
      k := k + 1;
    }
    return Ok(entries);
  }

  // ---------------------------------------------------------------------------
  // What extraction promises
  // ---------------------------------------------------------------------------

  /** Lines come one per contributing language, in language order, each non-empty. */
  lemma LinesForShape(sheets: seq<RawSheet>, i: nat, columns: seq<int>, k: nat)
    requires |sheets| == |Languages| && k <= |Languages|
    ensures var r := LinesFor(sheets, i, columns, k);
      r.Ok? && |r.value| == k ==> forall j :: 0 <= j < k ==>
        && r.value[j].key == Key(Languages[j])
        && r.value[j].text != ""
        && LanguageText(sheets[j], i, columns) == Ok(Some(r.value[j].text))
    ensures var r := LinesFor(sheets, i, columns, k);
      r.Ok? ==> (|r.value| == k <==> forall j :: 0 <= j < k ==> HasText(sheets[j], i, columns))
  {
    LinesForFull(sheets, i, columns, k);
    LinesForCount(sheets, i, columns, k);
    AllUpToEach(HasTextAt(sheets, i, columns), k);
  }

  /** When every language so far contributed, line j is language j's first text. */
  lemma {:induction false} LinesForFull(sheets: seq<RawSheet>, i: nat, columns: seq<int>, k: nat)
    requires |sheets| == |Languages| && k <= |Languages|
    ensures var r := LinesFor(sheets, i, columns, k);
      r.Ok? && |r.value| == k ==> forall j :: 0 <= j < k ==>
        && r.value[j].key == Key(Languages[j])
        && r.value[j].text != ""
        && LanguageText(sheets[j], i, columns) == Ok(Some(r.value[j].text))
  {
    var r := LinesFor(sheets, i, columns, k);
    if k > 0 && r.Ok? && |r.value| == k {
      var prev := LinesFor(sheets, i, columns, k - 1);
      var t := LanguageText(sheets[k - 1], i, columns);
      assert prev.Ok? && t.Ok? && t.value.Some?;
      var lines := prev.value + [Line(Key(Languages[k - 1]), t.value.value)];
      assert r.value == lines;
      LinesForFull(sheets, i, columns, k - 1);
      FirstTextNonEmpty(sheets[k - 1], i, columns);
      forall j | 0 <= j < k
        ensures lines[j].key == Key(Languages[j]) && lines[j].text != ""
        ensures LanguageText(sheets[j], i, columns) == Ok(Some(lines[j].text))
      {
        if j < k - 1 {
          assert lines[j] == prev.value[j];
        }
      }
    }
  }

  /** `has` holds for each of 0 to k - 1. */
  predicate AllUpTo(has: nat -> bool, k: nat) {
    k == 0 || (AllUpTo(has, k - 1) && has(k - 1))
  }

  lemma {:induction false} AllUpToEach(has: nat -> bool, k: nat)
    ensures AllUpTo(has, k) <==> forall j :: 0 <= j < k ==> has(j)
  {
    if k > 0 {
      AllUpToEach(has, k - 1);
    }
  }

  /** Language j has text for row `i`. */
  function HasTextAt(sheets: seq<RawSheet>, i: nat, columns: seq<int>): nat -> bool {
    (j: nat) => j < |sheets| && HasText(sheets[j], i, columns)
  }

  /** Every language so far contributed exactly when each has text. */
  lemma {:induction false} LinesForCount(sheets: seq<RawSheet>, i: nat, columns: seq<int>, k: nat)
    requires |sheets| == |Languages| && k <= |Languages|
    ensures var r := LinesFor(sheets, i, columns, k);
      r.Ok? ==> (|r.value| == k <==> AllUpTo(HasTextAt(sheets, i, columns), k))
  {
    if k > 0 {
      LinesForCount(sheets, i, columns, k - 1);
    }
  }

  lemma FirstTextNonEmpty(sheet: RawSheet, i: nat, columns: seq<int>)
    ensures var t := LanguageText(sheet, i, columns); t.Ok? && t.value.Some? ==> t.value.value != ""
  {
  }

  /** Language `sheet` has text for row `i` in one of the candidate columns. */
  predicate HasText(sheet: RawSheet, i: nat, columns: seq<int>) {
    var t := LanguageText(sheet, i, columns);
    t.Ok? && t.value.Some?
  }

  /**
   * The all-or-nothing rule: a row becomes a record only when it is in the English sheet
   * and all five languages produced text; the record is keyed (group, row) and carries
   * each language's first non-empty candidate column, in language order.
   */
  lemma RowEntryAllOrNothing(group: nat, sheets: seq<RawSheet>, i: nat, columns: seq<int>)
    requires |sheets| == |Languages|
    ensures var r := RowEntry(group, sheets, i, columns);
      r.Ok? ==>
        (r.value.Some? <==>
           ValidRow(sheets[0], i)
           && forall j :: 0 <= j < LanguageCount ==> HasText(sheets[j], i, columns))
    ensures var r := RowEntry(group, sheets, i, columns);
      r.Ok? && r.value.Some? ==>
        && r.value.value.group == group && r.value.value.row == i
        && |r.value.value.lines| == LanguageCount
        && forall j :: 0 <= j < LanguageCount ==>
             && r.value.value.lines[j].key == Key(Languages[j])
             && r.value.value.lines[j].text != ""
             && LanguageText(sheets[j], i, columns) == Ok(Some(r.value.value.lines[j].text))
  {
    if ValidRow(sheets[0], i) {
      LinesForShape(sheets, i, columns, |Languages|);
    }
  }

  /** A language whose sheet lacks the row contributes no text, so the row is left out. */
  lemma MissingLanguageDropsRow(group: nat, sheets: seq<RawSheet>, i: nat, columns: seq<int>, j: nat)
    requires |sheets| == |Languages| && j < LanguageCount
    requires !ValidRow(sheets[j], i)
    ensures RowEntry(group, sheets, i, columns).Ok? ==> RowEntry(group, sheets, i, columns).value.None?
  {
    RowEntryAllOrNothing(group, sheets, i, columns);
  }

  /** Every record of a range is keyed by the group and by a row of that range. */
  lemma {:induction false} RangeEntriesKeys(group: nat, sheets: seq<RawSheet>, range: RowRange, columns: seq<int>, j: nat)
    requires |sheets| == |Languages|
    ensures var r := RangeEntries(group, sheets, range, columns, j);
      r.Ok? ==> forall e :: e in r.value ==>
        e.group == group && range.start <= e.row < j && ValidRow(sheets[0], e.row) && |e.lines| == LanguageCount
  {
    if j > range.start {
      RangeEntriesKeys(group, sheets, range, columns, j - 1);
      RowEntryAllOrNothing(group, sheets, j - 1, columns);
    }
  }

  /** The default whole-sheet range contributes no records. */
  lemma WholeSheetEmpty(group: nat, sheets: seq<RawSheet>, columns: seq<int>)
    requires |sheets| == |Languages|
    ensures RangeEntries(group, sheets, WholeSheet, columns, WholeSheet.end) == Ok([])
    ensures QueryEntries(group, sheets, Query([WholeSheet], columns), 1) == Ok([])
  {
    var q := Query([WholeSheet], columns);
    assert RangeStop(q.rows[0]) == 0;
    assert RangeEntries(group, sheets, q.rows[0], columns, 0) == Ok([]);
    assert QueryEntries(group, sheets, q, 0) == Ok([]);
    var none: seq<Entry> := [];
    assert none + none == none;
    assert QueryEntries(group, sheets, q, 1) == Concat(Ok(none), Ok(none));
  }

  // ---------------------------------------------------------------------------
  // The whole table
  // ---------------------------------------------------------------------------

  /** A Completion row: its group, the selector text and its own text. */
  datatype CompletionRow = CompletionRow(group: nat, lookupTable: SeString, text: SeString)

  function CompletionText(c: CompletionRow): Option<SeString> {
    Some(c.text)
  }

  /** The sheet opened by name in every language, in language order. */
  function OpenSheets(workbook: Workbook, name: string): (r: Result<seq<RawSheet>, Abort>)
    ensures r.Ok? ==> |r.value| == |Languages|
  {
    if name !in workbook then Err(UnknownSheet(name))
    else
      var byLanguage := workbook[name];
      if forall l :: l in Languages ==> l in byLanguage then
        Ok([byLanguage[English], byLanguage[Japanese], byLanguage[German], byLanguage[French], byLanguage[ChineseSimplified]])
      else Err(MissingSheet(name))
  }

  /** The records a selector lookup contributes. */
  function LookupEntries(group: nat, lookup: string, workbook: Workbook): Result<seq<Entry>, Abort> {
    match Parse(lookup)
    case Err(Malformed) => Err(SelectorSyntax(lookup))
    case Err(Overflow) => Err(SelectorOverflow(lookup))
    case Ok(sel) =>
      match OpenSheets(workbook, sel.sheetName)
      case Err(e) => Err(e)
      case Ok(sheets) =>
        match Resolve(sel.parts)
        case Err(e) => Err(e)
        case Ok(q) => QueryEntries(group, sheets, q, |q.rows|)
  }

  /** A lookup of `""` or `"@"` names no other sheet: the row's own text is used. */
  predicate IsDirect(lookup: string) {
    lookup == "" || lookup == "@"
  }

  /** The records contributed by one Completion row. */
  function CompletionEntries(completion: Sheets<CompletionRow>, k: nat, workbook: Workbook, upper: char -> char): Result<seq<Entry>, Abort>
    requires English in completion && k < |completion[English]|
  {
    var c := completion[English][k];
    var lookup := TextValue(c.row.lookupTable);
    if IsDirect(lookup) then
      assert HasRow(completion[English], c.rowId) by { assert completion[English][k].rowId == c.rowId; }
      match Localised(completion, c.rowId, CompletionText, false, upper)
      case None => Ok([])
      case Some(lines) => Ok([Entry(c.row.group, c.rowId, lines)])
    else LookupEntries(c.row.group, lookup, workbook)
  }

  /** What each Completion row contributes, row by row. */
  function RowResults(completion: Sheets<CompletionRow>, workbook: Workbook, upper: char -> char): (rs: seq<Result<seq<Entry>, Abort>>)
    requires English in completion
    ensures |rs| == |completion[English]|
    ensures forall k :: 0 <= k < |rs| ==> rs[k] == CompletionEntries(completion, k, workbook, upper)
  {
    seq(|completion[English]|, k requires 0 <= k < |completion[English]| => CompletionEntries(completion, k, workbook, upper))
  }

  /** The records of the first `k` rows, in emission order; the first abort wins. */
  function Flatten(rs: seq<Result<seq<Entry>, Abort>>, k: nat): Result<seq<Entry>, Abort>
    requires k <= |rs|
  {
    if k == 0 then Ok([]) else Concat(Flatten(rs, k - 1), rs[k - 1])
  }

  /** Once a row aborts generation, the later rows change nothing. */
  lemma {:induction false} FlattenErrSticks(rs: seq<Result<seq<Entry>, Abort>>, k: nat, n: nat)
    requires k <= n <= |rs| && Flatten(rs, k).Err?
    ensures Flatten(rs, n) == Flatten(rs, k)
  {
    if n > k {
      FlattenErrSticks(rs, k, n - 1);
    }
  }

  /** The whole table: every Completion row's records, or the first abort. */
  function Table(completion: Sheets<CompletionRow>, workbook: Workbook, upper: char -> char): Result<seq<Entry>, Abort>
    requires English in completion
  {
    Flatten(RowResults(completion, workbook, upper), |completion[English]|)
  }

  /**
   * A selector lookup: parse, find the sheet type by name, open it in every language,
   * resolve the parts, then walk the rows.
   */
  method Lookup(group: nat, lookup: string, workbook: Workbook) returns (r: Result<seq<Entry>, Abort>)
    ensures r == LookupEntries(group, lookup, workbook)
  {
    var parsed := Parse(lookup);
    if parsed.Err? {
      return if parsed.error == Malformed then Err(SelectorSyntax(lookup)) else Err(SelectorOverflow(lookup));
    }
    var sel := parsed.value;
    var sheets := OpenSheets(workbook, sel.sheetName);
    if sheets.Err? {
      return Err(sheets.error);
    }
    var q := ResolveSelector(sel.parts);
    if q.Err? {
      return Err(q.error);
    }
    r := ExtractQuery(group, sheets.value, q.value);
  }

  /** The body of the Completion loop: a selector lookup, or the row's own text. */
  method CompletionStep(completion: Sheets<CompletionRow>, k: nat, workbook: Workbook, upper: char -> char)
    returns (found: Result<seq<Entry>, Abort>)
    requires English in completion && k < |completion[English]|
    ensures found == CompletionEntries(completion, k, workbook, upper)
  {
    var c := completion[English][k];
    var lookup := TextValue(c.row.lookupTable);
    if !IsDirect(lookup) {
      found := Lookup(c.row.group, lookup, workbook);
    } else {
      assert HasRow(completion[English], c.rowId) by { assert completion[English][k].rowId == c.rowId; }
      var text := GetLocalisedStruct(completion, c.rowId, CompletionText, false, upper);
      found := if text.Some? then Ok([Entry(c.row.group, c.rowId, text.value)]) else Ok([]);
    }
  }

  /** GenerateAutoTranslate: walks the English Completion rows in order. */
  method GenerateAutoTranslate(completion: Sheets<CompletionRow>, workbook: Workbook, upper: char -> char)
    returns (r: Result<seq<Entry>, Abort>)
    requires English in completion
    ensures r == Table(completion, workbook, upper)
  {
    ghost var rs := RowResults(completion, workbook, upper);
    assert Table(completion, workbook, upper) == Flatten(rs, |rs|);
    var entries: seq<Entry> := [];
    var k := 0;
    while k < |completion[English]|
      invariant 0 <= k <= |completion[English]|
      invariant Flatten(rs, k) == Ok(entries)
    {
      var found := CompletionStep(completion, k, workbook, upper);
      assert found == rs[k];
      if found.Err? {
        assert Flatten(rs, k + 1) == Err(found.error);
        FlattenErrSticks(rs, k + 1, |rs|);
        return Err(found.error);
      }
      assert Flatten(rs, k + 1) == Ok(entries + found.value);
      entries := entries + found.value;
      k := k + 1;
    }
    return Ok(entries);
  }

  /** A selector that does not parse aborts the row that carries it. */
  lemma BadSelectorRow(completion: Sheets<CompletionRow>, workbook: Workbook, upper: char -> char, bad: nat)
    requires English in completion && bad < |completion[English]|
    requires !IsDirect(TextValue(completion[English][bad].row.lookupTable))
    requires Parse(TextValue(completion[English][bad].row.lookupTable)).Err?
    ensures CompletionEntries(completion, bad, workbook, upper).Err?
  {
  }

  /** An unparsable selector on any Completion row aborts the whole table. */
  lemma BadSelectorAborts(completion: Sheets<CompletionRow>, workbook: Workbook, upper: char -> char, bad: nat)
    requires English in completion && bad < |completion[English]|
    requires !IsDirect(TextValue(completion[English][bad].row.lookupTable))
    requires Parse(TextValue(completion[English][bad].row.lookupTable)).Err?
    ensures Table(completion, workbook, upper).Err?
  {
    var rs := RowResults(completion, workbook, upper);
    BadSelectorRow(completion, workbook, upper, bad);
    FlattenErrSticks(rs, bad + 1, |rs|);
  }

  /** The lookup table as the Rust map literal defines it: a later record for a key wins. */
  function AsMap(entries: seq<Entry>): (m: map<(nat, nat), seq<Line>>)
    ensures forall e :: e in entries ==> (e.group, e.row) in m
    ensures forall key :: key in m ==> exists e :: e in entries && (e.group, e.row) == key
  {
    if |entries| == 0 then map[]
    else
      var last := entries[|entries| - 1];
      var m := AsMap(entries[..|entries| - 1]);
      assert forall e :: e in entries ==> e in entries[..|entries| - 1] || e == last;
      m[(last.group, last.row) := last.lines]
  }

  /** The record stored for a key is that of the last entry with the key. */
  lemma {:induction false} AsMapLastWins(entries: seq<Entry>, k: nat)
    requires k < |entries|
    requires forall j :: k < j < |entries| ==> (entries[j].group, entries[j].row) != (entries[k].group, entries[k].row)
    ensures AsMap(entries)[(entries[k].group, entries[k].row)] == entries[k].lines
  {
    if k < |entries| - 1 {
      var prefix := entries[..|entries| - 1];
      AsMapLastWins(prefix, k);
    }
  }
}

/**
 * The locale-table generator's shared machinery: the five configured languages, game-data
 * sheets as ordered row lists, and the direct lookup that builds a five-language text
 * record for one row, falling back to the English text (GetLocalisedStruct).
 */
module Generator {
  import opened Wrappers
  import opened SeStringText

  datatype Language = English | Japanese | German | French | ChineseSimplified

  /** The configured languages in the order the generator enumerates them. */
  const Languages: seq<Language> := [English, Japanese, German, French, ChineseSimplified]

  /** Every record carries one line per configured language. */
  const LanguageCount: nat := 5

  /** The field name each language's text is emitted under. */
  function Key(l: Language): string {
    match l
    case English => "en"
    case Japanese => "ja"
    case German => "de"
    case French => "fr"
    case ChineseSimplified => "zh"
  }

  lemma LanguagesDistinct()
    ensures |Languages| == LanguageCount
    ensures forall i, j :: 0 <= i < j < |Languages| ==> Languages[i] != Languages[j] && Key(Languages[i]) != Key(Languages[j])
  {
  }

  /** One emitted `key: "text"` line of a text record. */
  datatype Line = Line(key: string, text: string)

  /** A data sheet: its rows in file order, each with its row id. */
  datatype SheetRow<T> = SheetRow(rowId: nat, row: T)
  type Sheet<T> = seq<SheetRow<T>>

  /** One row type in every language; a language without a key is a sheet that is not available. */
  type Sheets<T> = map<Language, Sheet<T>>

  predicate HasRow<T>(sheet: Sheet<T>, rowId: nat) {
    exists k :: 0 <= k < |sheet| && sheet[k].rowId == rowId
  }

  /** Row `k` is the first one carrying `rowId`. */
  predicate FirstAt<T>(sheet: Sheet<T>, rowId: nat, k: int) {
    0 <= k < |sheet| && sheet[k].rowId == rowId && forall j :: 0 <= j < k ==> sheet[j].rowId != rowId
  }

  /** `GetRow(rowId)`: the first row carrying that id, or null. */
  function GetRow<T>(sheet: Sheet<T>, rowId: nat): (r: Option<T>)
    ensures r.Some? <==> HasRow(sheet, rowId)
    ensures r.Some? ==> exists k :: FirstAt(sheet, rowId, k) && sheet[k].row == r.value
  {
    if |sheet| == 0 then None
    else if sheet[0].rowId == rowId then Some(sheet[0].row)
    else
      var r := GetRow(sheet[1..], rowId);
      assert HasRow(sheet, rowId) ==> HasRow(sheet[1..], rowId) by {
        if HasRow(sheet, rowId) {
          var k :| 0 <= k < |sheet| && sheet[k].rowId == rowId;
          assert sheet[1..][k - 1].rowId == rowId;
        }
      }
      assert r.Some? ==> HasRow(sheet, rowId) by {
        if r.Some? {
          var k :| 0 <= k < |sheet[1..]| && sheet[1..][k].rowId == rowId;
          assert sheet[k + 1].rowId == rowId;
        }
      }
      assert r.Some? ==> exists k :: FirstAt(sheet, rowId, k) && sheet[k].row == r.value by {
        if r.Some? {
          var k :| FirstAt(sheet[1..], rowId, k) && sheet[1..][k].row == r.value;
          assert sheet[k + 1].rowId == rowId && sheet[k + 1].row == r.value;
          assert forall j :: 0 <= j < k + 1 ==> sheet[j].rowId != rowId by {
            forall j | 0 <= j < k + 1 ensures sheet[j].rowId != rowId {
              if j > 0 { assert sheet[j] == sheet[1..][j - 1]; }
            }
          }
          assert FirstAt(sheet, rowId, k + 1);
        }
      }
      r
  }

  /** `GetExcelSheet<T>(language)?.GetRow(rowId)`: null when the sheet or the row is missing. */
  function LocalRow<T>(sheets: Sheets<T>, l: Language, rowId: nat): Option<T> {
    if l in sheets then GetRow(sheets[l], rowId) else None
  }

  // ---------------------------------------------------------------------------
  // GetLocalisedStruct
  // ---------------------------------------------------------------------------

  /** The English reference text: `nameFunc(def)?.TextValue()`. */
  function DefaultName<T>(sheets: Sheets<T>, rowId: nat, nameOf: T -> Option<SeString>): Option<string>
    requires English in sheets && HasRow(sheets[English], rowId)
  {
    match nameOf(GetRow(sheets[English], rowId).value)
    case None => None
    case Some(s) => Some(TextValue(s))
  }

  /**
   * One language's text before capitalisation. A missing row takes the English text as it
   * is; a present row takes its own text with quotes escaped; a null text falls back to
   * English. An empty text of a present row is kept.
   */
  function LocalName<T>(sheets: Sheets<T>, l: Language, rowId: nat, nameOf: T -> Option<SeString>, defName: string): string {
    match LocalRow(sheets, l, rowId)
    case None => defName
    case Some(row) =>
      match nameOf(row)
      case None => defName
      case Some(s) => Escape(TextValue(s))
  }

  /** `name[..1].ToUpperInvariant() + name[1..]`, with the case mapping passed in. */
  function Capitalised(name: string, upper: char -> char): (r: string)
    requires |name| > 0
    ensures |r| == |name| && r[0] == upper(name[0]) && r[1..] == name[1..]
  {
    [upper(name[0])] + name[1..]
  }

  /** The line a language contributes; with capitalisation an empty text contributes none. */
  function LineFor<T>(sheets: Sheets<T>, l: Language, rowId: nat, nameOf: T -> Option<SeString>,
                      defName: string, capitalise: bool, upper: char -> char): Option<Line> {
    var name := LocalName(sheets, l, rowId, nameOf, defName);
    if !capitalise then Some(Line(Key(l), name))
    else if |name| == 0 then None
    else Some(Line(Key(l), Capitalised(name, upper)))
  }

  /** The lines produced by the first `k` languages. */
  function LinesUpTo<T>(sheets: Sheets<T>, rowId: nat, nameOf: T -> Option<SeString>,
                        defName: string, capitalise: bool, upper: char -> char, k: nat): (lines: seq<Line>)
    requires k <= |Languages|
    ensures |lines| <= k
  {
    if k == 0 then []
    else
      var prefix := LinesUpTo(sheets, rowId, nameOf, defName, capitalise, upper, k - 1);
      match LineFor(sheets, Languages[k - 1], rowId, nameOf, defName, capitalise, upper)
      case None => prefix
      case Some(line) => prefix + [line]
  }

  /** The record GetLocalisedStruct returns, or None where it returns null. */
  function Localised<T>(sheets: Sheets<T>, rowId: nat, nameOf: T -> Option<SeString>,
                        capitalise: bool, upper: char -> char): Option<seq<Line>>
    requires English in sheets && HasRow(sheets[English], rowId)
  {
    var def := DefaultName(sheets, rowId, nameOf);
    if def.None? || def.value == "" then None
    else
      var lines := LinesUpTo(sheets, rowId, nameOf, def.value, capitalise, upper, |Languages|);
      if |lines| != LanguageCount then None else Some(lines)
  }

  /**
   * GetLocalisedStruct: builds the record line by line, counting the lines, and gives null
   * unless all five languages produced one. The English row must exist (the source
   * dereferences it with `!`).
   */
  method GetLocalisedStruct<T>(sheets: Sheets<T>, rowId: nat, nameOf: T -> Option<SeString>,
                               capitalise: bool, upper: char -> char) returns (r: Option<seq<Line>>)
    requires English in sheets && HasRow(sheets[English], rowId)
    ensures r == Localised(sheets, rowId, nameOf, capitalise, upper)
  {
    var def := GetRow(sheets[English], rowId).value;
    var defName: Option<string> := match nameOf(def) case None => None case Some(s) => Some(TextValue(s));
    if defName.None? || defName.value == "" {
      return None;
    }
    var lines: seq<Line> := [];
    var line := 0;
    var k := 0;
    while k < |Languages|
      invariant 0 <= k <= |Languages|
      invariant lines == LinesUpTo(sheets, rowId, nameOf, defName.value, capitalise, upper, k)
      invariant line == |lines|
    {
      var added;
      lines, added := AddLine(sheets, rowId, nameOf, defName.value, capitalise, upper, k, lines);
      if added {
        line := line + 1;
      }
      k := k + 1;
    }
    if line != LanguageCount {
      return None;
    }
    return Some(lines);
  }

  /** One pass of the language loop: the line of language `k`, unless it is skipped. */
  method AddLine<T>(sheets: Sheets<T>, rowId: nat, nameOf: T -> Option<SeString>, defName: string,
                    capitalise: bool, upper: char -> char, k: nat, lines: seq<Line>) returns (next: seq<Line>, added: bool)
    requires k < |Languages| && lines == LinesUpTo(sheets, rowId, nameOf, defName, capitalise, upper, k)
    ensures next == LinesUpTo(sheets, rowId, nameOf, defName, capitalise, upper, k + 1)
    ensures added <==> |next| == |lines| + 1
    ensures !added ==> next == lines
  {
    var language := Languages[k];
    var name := LocalName(sheets, language, rowId, nameOf, defName);
    if capitalise {
      if |name| == 0 {
        return lines, false;
      }
      name := [upper(name[0])] + name[1..];
    }
    return lines + [Line(Key(language), name)], true;
  }

  // ---------------------------------------------------------------------------
  // What the direct lookup promises
  // ---------------------------------------------------------------------------

  /** The line for language `k`, when every earlier language produced one. */
  lemma {:induction false} LinesUpToFull<T>(sheets: Sheets<T>, rowId: nat, nameOf: T -> Option<SeString>,
                                            defName: string, capitalise: bool, upper: char -> char, k: nat)
    requires k <= |Languages|
    ensures var lines := LinesUpTo(sheets, rowId, nameOf, defName, capitalise, upper, k);
      |lines| == k <==> forall j :: 0 <= j < k ==> LineFor(sheets, Languages[j], rowId, nameOf, defName, capitalise, upper).Some?
    ensures var lines := LinesUpTo(sheets, rowId, nameOf, defName, capitalise, upper, k);
      |lines| == k ==> forall j :: 0 <= j < k ==> lines[j] == LineFor(sheets, Languages[j], rowId, nameOf, defName, capitalise, upper).value
  {
    if k > 0 {
      LinesUpToFull(sheets, rowId, nameOf, defName, capitalise, upper, k - 1);
    }
  }

  /** No record without a non-empty English reference text. */
  lemma LocalisedNeedsDefault<T>(sheets: Sheets<T>, rowId: nat, nameOf: T -> Option<SeString>,
                                 capitalise: bool, upper: char -> char)
    requires English in sheets && HasRow(sheets[English], rowId)
    ensures Localised(sheets, rowId, nameOf, capitalise, upper).Some? ==>
      DefaultName(sheets, rowId, nameOf).Some? && DefaultName(sheets, rowId, nameOf).value != ""
  {
  }

  /**
   * The fallback law: a record has the five languages' lines in order, and a language
   * whose row is missing, or whose text is null, carries the English text unescaped;
   * a present text is escaped.
   */
  lemma LocalisedLines<T>(sheets: Sheets<T>, rowId: nat, nameOf: T -> Option<SeString>,
                          capitalise: bool, upper: char -> char)
    requires English in sheets && HasRow(sheets[English], rowId)
    ensures var r := Localised(sheets, rowId, nameOf, capitalise, upper);
      r.Some? ==>
        var defName := DefaultName(sheets, rowId, nameOf).value;
        && |r.value| == LanguageCount
        && forall k :: 0 <= k < LanguageCount ==>
             var l := Languages[k];
             var name := LocalName(sheets, l, rowId, nameOf, defName);
             && r.value[k].key == Key(l)
             && (LocalRow(sheets, l, rowId).None? ==> name == defName)
             && (LocalRow(sheets, l, rowId).Some? && nameOf(LocalRow(sheets, l, rowId).value).None? ==> name == defName)
             && (LocalRow(sheets, l, rowId).Some? && nameOf(LocalRow(sheets, l, rowId).value).Some? ==>
                   name == Escape(TextValue(nameOf(LocalRow(sheets, l, rowId).value).value)))
             && (!capitalise ==> r.value[k].text == name)
             && (capitalise ==> |name| > 0 && r.value[k].text == Capitalised(name, upper))
  {
    var r := Localised(sheets, rowId, nameOf, capitalise, upper);
    if r.Some? {
      var defName := DefaultName(sheets, rowId, nameOf).value;
      LinesUpToFull(sheets, rowId, nameOf, defName, capitalise, upper, |Languages|);
    }
  }

  /**
   * Without capitalisation a record exists exactly when the English text is non-empty;
   * with it, additionally every language's text must be non-empty.
   */
  lemma LocalisedExists<T>(sheets: Sheets<T>, rowId: nat, nameOf: T -> Option<SeString>,
                           capitalise: bool, upper: char -> char)
    requires English in sheets && HasRow(sheets[English], rowId)
    ensures var def := DefaultName(sheets, rowId, nameOf);
      Localised(sheets, rowId, nameOf, capitalise, upper).Some? <==>
        def.Some? && def.value != ""
        && (capitalise ==> forall k :: 0 <= k < LanguageCount ==>
              LocalName(sheets, Languages[k], rowId, nameOf, def.value) != "")
  {
    var def := DefaultName(sheets, rowId, nameOf);
    if def.Some? && def.value != "" {
      LinesUpToFull(sheets, rowId, nameOf, def.value, capitalise, upper, |Languages|);
    }
  }
}

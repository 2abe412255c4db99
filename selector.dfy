/**
 * The auto-translate selector grammar of the locale-table generator: a string such as
 * `Sheet[1-36, col-2, noun]` names a data sheet and, optionally, a bracketed list of
 * selector parts. The parser is written as recursive descent over the remaining input;
 * every sub-parser returns what it parsed together with the input that follows it.
 */
module Selector {
  import opened Wrappers
  import opened Text

  /** Largest value `uint.Parse` accepts; a longer digit run throws. */
  const MaxU32: nat := 0xFFFF_FFFF

  /** The four selector-part classes, as a closed sum type. */
  datatype SelectorPart =
    | SingleRow(row: nat)
    | IndexRange(start: nat, end: nat)
    | ColumnSpecifier(column: nat)
    | NounMarker

  /** The parser's result: the sheet name and the optional list of parts. */
  datatype ParsedSelector = ParsedSelector(sheetName: string, parts: Option<seq<SelectorPart>>)

  /**
   * Why a parse did not produce a selector: the grammar did not match, or a digit run
   * exceeded the 32-bit unsigned range (`uint.Parse` throws an overflow exception).
   */
  datatype ParseError = Malformed | Overflow

  /** The outcome of one sub-parser. */
  datatype Step<T> = Parsed(value: T, rest: string) | NoMatch | Thrown

  /** Length of the run of ASCII digits at the start of `s` (`Digit.AtLeastOnce()` when > 0). */
  function DigitRun(s: string): (n: nat)
    ensures n <= |s| && AllDigits(s[..n])
    ensures n < |s| ==> !IsAsciiDigit(s[n])
  {
    if |s| > 0 && IsAsciiDigit(s[0]) then
      var n := 1 + DigitRun(s[1..]);
      assert s[..n] == [s[0]] + s[1..][..n - 1];
      n
    else 0
  }

  /** `Token(char.IsWhiteSpace).SkipMany()`: drops the leading whitespace; never fails. */
  function SkipWhitespace(s: string): (r: string)
    ensures |r| <= |s|
    ensures |r| > 0 ==> !IsWhiteSpace(r[0])
  {
    if |s| > 0 && IsWhiteSpace(s[0]) then SkipWhitespace(s[1..]) else s
  }

  /** Skipping whitespace twice in a row skips no more than skipping it once. */
  lemma SkipWhitespaceIdempotent(s: string)
    ensures SkipWhitespace(SkipWhitespace(s)) == SkipWhitespace(s)
  {
  }

  /**
   * `Digit.AtLeastOnce()` followed by `uint.Parse`: no match without a leading digit,
   * the exception when the run exceeds the 32-bit unsigned range.
   */
  function UInt(s: string): (r: Step<nat>)
    ensures r.Parsed? ==> r.value <= MaxU32 && |r.rest| < |s|
    ensures r.NoMatch? ==> |s| == 0 || !IsAsciiDigit(s[0])
  {
    var j := DigitRun(s);
    if j == 0 then NoMatch
    else if DecimalValue(s[..j]) <= MaxU32 then Parsed(DecimalValue(s[..j]), s[j..])
    else Thrown
  }

  /** `String("col-")` matches at the start of `s`. */
  predicate IsColumnKeyword(s: string)
  {
    |s| >= 4 && s[0] == 'c' && s[1] == 'o' && s[2] == 'l' && s[3] == '-'
  }

  /** `String("noun")` matches at the start of `s`. */
  predicate IsNounKeyword(s: string)
  {
    |s| >= 4 && s[0] == 'n' && s[1] == 'o' && s[2] == 'u' && s[3] == 'n'
  }

  /**
   * `OneOf(Try(numPair), singleRow, column, noun)`. `Try` makes a failed `numPair`
   * give its input back, so a digit run that is not followed by `-digits` is re-read
   * as a `SingleRow`. `uint.Parse` runs only after the digits have been matched,
   * and its exception is not a parse failure: `Try` does not catch it, so an
   * oversized number throws whichever alternative reads it.
   */
  function Item(s: string): (r: Step<SelectorPart>)
    ensures r.Parsed? ==> |r.rest| < |s| && PartInRange(r.value)
  {
    match UInt(s)
    case Parsed(a, afterFirst) =>
      if |afterFirst| > 0 && afterFirst[0] == '-' && UInt(afterFirst[1..]) != NoMatch then
        match UInt(afterFirst[1..])
        case Parsed(b, rest) => Parsed(IndexRange(a, b), rest)
        case _ => Thrown
      else Parsed(SingleRow(a), afterFirst)
    case Thrown => Thrown
    case NoMatch =>
      if IsColumnKeyword(s) then
        match UInt(s[4..])
        case Parsed(c, rest) => Parsed(ColumnSpecifier(c), rest)
        case NoMatch => NoMatch
        case Thrown => Thrown
      else if IsNounKeyword(s) then Parsed(NounMarker, s[4..])
      else NoMatch
  }

  /** The closing `whitespace.Then(Char(']'))` of `Between`. */
  function Close(s: string): (r: Step<seq<SelectorPart>>)
    ensures r.Parsed? ==> r.value == [] && |r.rest| < |s|
  {
    var t := SkipWhitespace(s);
    if |t| > 0 && t[0] == ']' then Parsed([], t[1..]) else NoMatch
  }

  /**
   * `separator.Then(selectorItem).Many()` followed by the closing bracket. A comma
   * commits: once it is consumed, a missing item fails the whole list.
   */
  function ItemsAfterFirst(s: string): (r: Step<seq<SelectorPart>>)
    ensures r.Parsed? ==> |r.rest| < |s|
    ensures r.Parsed? ==> forall i :: 0 <= i < |r.value| ==> PartInRange(r.value[i])
    decreases |s|
  {
    if |s| > 0 && s[0] == ',' then
      // the separator's whitespace and the item's own leading whitespace are two
      // skips back to back, which together drop one run (SkipWhitespaceIdempotent)
      var p := SkipWhitespace(s[1..]);
      match Item(p)
      case Parsed(part, after) =>
        (match ItemsAfterFirst(after)
         case Parsed(more, rest) => Parsed([part] + more, rest)
         case NoMatch => NoMatch
         case Thrown => Thrown)
      case NoMatch => NoMatch
      case Thrown => Thrown
    else Close(s)
  }

  /**
   * The bracketed list, starting just after `[`: `Char('[').Then(whitespace)`, then
   * `selectorItem.Separated(separator)`, then the closing bracket. When the first item
   * does not match, `Separated` yields the empty list and only `]` may follow (an item
   * that matched a prefix such as `c` or `n` is followed by that letter, not by `]`).
   */
  function List(s: string): (r: Step<seq<SelectorPart>>)
    ensures r.Parsed? ==> forall i :: 0 <= i < |r.value| ==> PartInRange(r.value[i])
  {
    var p := SkipWhitespace(s);
    match Item(p)
    case Parsed(part, after) =>
      (match ItemsAfterFirst(after)
       case Parsed(more, rest) => Parsed([part] + more, rest)
       case NoMatch => NoMatch
       case Thrown => Thrown)
    case NoMatch => Close(p)
    case Thrown => Thrown
  }

  /**
   * `Any.AtLeastOnceUntil(Lookahead(Char('[') | End))`: the first character is taken
   * unconditionally, then characters up to the next `[` or the end. The result is the
   * length of the sheet name.
   */
  function SheetNameLength(s: string): (n: nat)
    requires |s| > 0
    ensures 1 <= n <= |s|
    ensures n < |s| ==> s[n] == '['
    ensures forall k :: 1 <= k < n ==> s[k] != '['
  {
    1 + NonBracketRun(s[1..])
  }

  function NonBracketRun(s: string): (n: nat)
    ensures n <= |s|
    ensures n < |s| ==> s[n] == '['
    ensures forall k :: 0 <= k < n ==> s[k] != '['
  {
    if |s| > 0 && s[0] != '[' then 1 + NonBracketRun(s[1..]) else 0
  }

  /**
   * `Map((name, selector) => ..., sheetName, selector.Optional())` run by `ParseOrThrow`.
   * `Optional` yields "no selector" only when `[` is absent; once `[` is consumed, an
   * ill-formed list fails the parse. The parser is not anchored with `End`: whatever
   * follows the closing `]` is never examined.
   */
  function Parse(s: string): (r: Result<ParsedSelector, ParseError>)
    ensures |s| == 0 ==> r == Err(Malformed)
    ensures r.Ok? ==>
      |r.value.sheetName| >= 1 && StartsWith(s, r.value.sheetName)
      && (forall k :: 1 <= k < |r.value.sheetName| ==> r.value.sheetName[k] != '[')
      && (r.value.parts.None? <==> r.value.sheetName == s)
    ensures |s| > 0 && '[' !in s[1..] ==> r == Ok(ParsedSelector(s, None))
    ensures r.Ok? ==> WellFormed(r.value)
  {
    if |s| == 0 then Err(Malformed)
    else
      var n := SheetNameLength(s);
      if n == |s| then Ok(ParsedSelector(s, None))
      else
        match List(s[n + 1..])
        case Parsed(parts, _) => Ok(ParsedSelector(s[..n], Some(parts)))
        case NoMatch => Err(Malformed)
        case Thrown => Err(Overflow)
  }

  // ---------------------------------------------------------------------------
  // A canonical rendering of selectors, and the proof that the parser reads it back.
  // ---------------------------------------------------------------------------

  /** A part written out, followed by the text `t`. */
  function RenderPartThen(p: SelectorPart, t: string): string {
    match p
    case SingleRow(r) => NatToString(r) + t
    case IndexRange(a, b) => NatToString(a) + ("-" + (NatToString(b) + t))
    case ColumnSpecifier(c) => "col-" + (NatToString(c) + t)
    case NounMarker => "noun" + t
  }

  /** `, <gaps[i]> ps[i]` for every part, then `close`. */
  function RenderItemsThen(ps: seq<SelectorPart>, gaps: seq<string>, close: string): string
    requires |gaps| == |ps|
  {
    if |ps| == 0 then close
    else "," + (gaps[0] + RenderPartThen(ps[0], RenderItemsThen(ps[1..], gaps[1..], close)))
  }

  /**
   * The whitespace of a written list, each position chosen on its own: after `[`, after
   * each comma (one entry per comma) and before `]`.
   */
  datatype Spacing = Spacing(open: string, commas: seq<string>, close: string)

  /** `sp` is whitespace throughout and has one entry per comma of a list of `n` parts. */
  predicate SpacingFor(sp: Spacing, n: nat) {
    && AllWhiteSpace(sp.open) && AllWhiteSpace(sp.close)
    && |sp.commas| == (if n == 0 then 0 else n - 1)
    && forall i :: 0 <= i < |sp.commas| ==> AllWhiteSpace(sp.commas[i])
  }

  /** The list of `ps` written out from just after `[`, followed by the text `t`. */
  function RenderListThen(ps: seq<SelectorPart>, sp: Spacing, t: string): string
    requires |sp.commas| == (if |ps| == 0 then 0 else |ps| - 1)
  {
    var close := sp.close + ("]" + t);
    sp.open + if |ps| == 0 then close else RenderPartThen(ps[0], RenderItemsThen(ps[1..], sp.commas, close))
  }

  /** The selector written out with the spacing `sp`, followed by the text `t`. */
  function RenderThen(sel: ParsedSelector, sp: Spacing, t: string): string
    requires sel.parts.Some? ==> SpacingFor(sp, |sel.parts.value|)
  {
    match sel.parts
    case None => sel.sheetName + t
    case Some(ps) => sel.sheetName + ("[" + RenderListThen(ps, sp, t))
  }

  predicate PartInRange(p: SelectorPart) {
    match p
    case SingleRow(r) => r <= MaxU32
    case IndexRange(a, b) => a <= MaxU32 && b <= MaxU32
    case ColumnSpecifier(c) => c <= MaxU32
    case NounMarker => true
  }

  /** What the parser can produce: a non-empty sheet name without `[` after its first character, 32-bit numbers. */
  predicate WellFormed(sel: ParsedSelector) {
    && |sel.sheetName| >= 1
    && (forall k :: 1 <= k < |sel.sheetName| ==> sel.sheetName[k] != '[')
    && (sel.parts.Some? ==> forall i :: 0 <= i < |sel.parts.value| ==> PartInRange(sel.parts.value[i]))
  }

  /** What may follow an item: a comma, the closing bracket or whitespace. */
  predicate Delimited(t: string) {
    |t| > 0 && (t[0] == ',' || t[0] == ']' || IsWhiteSpace(t[0]))
  }

  lemma DigitRunOfDigits(d: string, t: string)
    requires AllDigits(d)
    requires |t| == 0 || !IsAsciiDigit(t[0])
    ensures DigitRun(d + t) == |d|
    ensures (d + t)[..|d|] == d && (d + t)[|d|..] == t
  {
    if |d| > 0 {
      var s := d + t;
      assert s[0] == d[0] && IsAsciiDigit(s[0]);
      assert s[1..] == d[1..] + t;
      DigitRunOfDigits(d[1..], t);
      assert DigitRun(s) == 1 + DigitRun(s[1..]);
    } else {
      assert d + t == t;
    }
  }

  lemma SkipWhitespaceOver(ws: string, t: string)
    requires AllWhiteSpace(ws)
    requires |t| == 0 || !IsWhiteSpace(t[0])
    ensures SkipWhitespace(ws + t) == t
  {
    if |ws| > 0 {
      assert (ws + t)[1..] == ws[1..] + t;
      SkipWhitespaceOver(ws[1..], t);
    }
  }

  lemma UIntRender(n: nat, t: string)
    requires n <= MaxU32
    requires |t| == 0 || !IsAsciiDigit(t[0])
    ensures UInt(NatToString(n) + t) == Parsed(n, t)
  {
    DigitRunOfDigits(NatToString(n), t);
  }

  lemma DelimitedNotDigit(t: string)
    requires Delimited(t)
    ensures !IsAsciiDigit(t[0]) && t[0] != '-'
  {
  }

  lemma SingleRowRender(r: nat, t: string)
    requires r <= MaxU32 && Delimited(t)
    ensures Item(NatToString(r) + t) == Parsed(SingleRow(r), t)
  {
    DelimitedNotDigit(t);
    UIntRender(r, t);
  }

  lemma IndexRangeRender(a: nat, b: nat, t: string)
    requires a <= MaxU32 && b <= MaxU32 && Delimited(t)
    ensures Item(NatToString(a) + ("-" + (NatToString(b) + t))) == Parsed(IndexRange(a, b), t)
  {
    var af := "-" + (NatToString(b) + t);
    assert af[0] == '-';
    assert af[1..] == NatToString(b) + t;
    UIntRender(a, af);
    DelimitedNotDigit(t);
    UIntRender(b, t);
  }

  lemma ColumnRender(c: nat, t: string)
    requires c <= MaxU32 && Delimited(t)
    ensures Item("col-" + (NatToString(c) + t)) == Parsed(ColumnSpecifier(c), t)
  {
    var s := "col-" + (NatToString(c) + t);
    assert s[0] == 'c' && s[1] == 'o' && s[2] == 'l' && s[3] == '-';
    assert s[4..] == NatToString(c) + t;
    DelimitedNotDigit(t);
    UIntRender(c, t);
  }

  lemma NounRender(t: string)
    ensures Item("noun" + t) == Parsed(NounMarker, t)
  {
    var s := "noun" + t;
    assert s[0] == 'n' && s[1] == 'o' && s[2] == 'u' && s[3] == 'n';
    assert s[4..] == t;
  }

  /** A rendered part followed by a delimiter parses back to that part. */
  lemma ItemRender(p: SelectorPart, t: string)
    requires PartInRange(p) && Delimited(t)
    ensures Item(RenderPartThen(p, t)) == Parsed(p, t)
  {
    match p
    case SingleRow(r) => SingleRowRender(r, t);
    case IndexRange(a, b) => IndexRangeRender(a, b, t);
    case ColumnSpecifier(c) => ColumnRender(c, t);
    case NounMarker => NounRender(t);
  }

  /** A rendered part starts with a character that is neither a delimiter nor whitespace. */
  lemma RenderPartStart(p: SelectorPart, t: string)
    ensures var s := RenderPartThen(p, t); |s| > 0 && s[0] != ',' && s[0] != ']' && !IsWhiteSpace(s[0])
  {
    match p
    case SingleRow(r) =>
      assert RenderPartThen(p, t)[0] == NatToString(r)[0];
    case IndexRange(a, b) =>
      assert RenderPartThen(p, t)[0] == NatToString(a)[0];
    case ColumnSpecifier(c) =>
      assert RenderPartThen(p, t)[0] == 'c';
    case NounMarker =>
      assert RenderPartThen(p, t)[0] == 'n';
  }

  /** The closing bracket after optional whitespace. */
  lemma CloseRender(ws: string, t: string)
    requires AllWhiteSpace(ws)
    ensures Delimited(ws + ("]" + t))
    ensures SkipWhitespace(ws + ("]" + t)) == "]" + t
    ensures Close("]" + t) == Parsed([], t)
    ensures Item("]" + t) == NoMatch
  {
    if |ws| > 0 {
      assert (ws + ("]" + t))[0] == ws[0];
    }
    SkipWhitespaceOver(ws, "]" + t);
    assert ("]" + t)[1..] == t;
  }

  /** One `, item` step of the tail, on arbitrary text. */
  lemma CommaStep(ws: string, x: string, part: SelectorPart, after: string, more: seq<SelectorPart>, t: string)
    requires AllWhiteSpace(ws) && |x| > 0 && !IsWhiteSpace(x[0])
    requires Item(x) == Parsed(part, after) && ItemsAfterFirst(after) == Parsed(more, t)
    ensures ItemsAfterFirst("," + (ws + x)) == Parsed([part] + more, t)
  {
    assert ("," + (ws + x))[1..] == ws + x;
    SkipWhitespaceOver(ws, x);
  }

  /** The first item of a list, on arbitrary text. */
  lemma FirstStep(ws: string, x: string, part: SelectorPart, after: string, more: seq<SelectorPart>, t: string)
    requires AllWhiteSpace(ws) && |x| > 0 && !IsWhiteSpace(x[0])
    requires Item(x) == Parsed(part, after) && ItemsAfterFirst(after) == Parsed(more, t)
    ensures List(ws + x) == Parsed([part] + more, t)
  {
    SkipWhitespaceOver(ws, x);
  }

  /** No further items: the tail is just the closing bracket. */
  lemma EmptyTail(ws: string, t: string)
    requires AllWhiteSpace(ws)
    ensures ItemsAfterFirst(ws + ("]" + t)) == Parsed([], t)
  {
    CloseRender(ws, t);
  }

  /** What follows a rendered item inside a list is a delimiter. */
  lemma ItemsDelimited(ps: seq<SelectorPart>, gaps: seq<string>, ws: string, t: string)
    requires |gaps| == |ps| && AllWhiteSpace(ws)
    ensures Delimited(RenderItemsThen(ps, gaps, ws + ("]" + t)))
  {
    if |ps| == 0 {
      CloseRender(ws, t);
    }
  }

  /** The comma-separated tail and the closing bracket parse back to the tail's parts. */
  lemma {:induction false} TailRender(ps: seq<SelectorPart>, gaps: seq<string>, ws: string, t: string)
    requires forall i :: 0 <= i < |ps| ==> PartInRange(ps[i])
    requires |gaps| == |ps| && forall i :: 0 <= i < |gaps| ==> AllWhiteSpace(gaps[i])
    requires AllWhiteSpace(ws)
    ensures ItemsAfterFirst(RenderItemsThen(ps, gaps, ws + ("]" + t))) == Parsed(ps, t)
  {
    if |ps| == 0 {
      EmptyTail(ws, t);
    } else {
      var after := RenderItemsThen(ps[1..], gaps[1..], ws + ("]" + t));
      var x := RenderPartThen(ps[0], after);
      RenderPartStart(ps[0], after);
      ItemsDelimited(ps[1..], gaps[1..], ws, t);
      ItemRender(ps[0], after);
      TailRender(ps[1..], gaps[1..], ws, t);
      CommaStep(gaps[0], x, ps[0], after, ps[1..], t);
      assert [ps[0]] + ps[1..] == ps;
    }
  }

  /** A rendered list, from just after `[` to the text after `]`, parses back to its parts. */
  lemma ListRender(ps: seq<SelectorPart>, sp: Spacing, t: string)
    requires forall i :: 0 <= i < |ps| ==> PartInRange(ps[i])
    requires SpacingFor(sp, |ps|)
    ensures List(RenderListThen(ps, sp, t)) == Parsed(ps, t)
  {
    var close := sp.close + ("]" + t);
    if |ps| == 0 {
      assert RenderListThen(ps, sp, t) == (sp.open + sp.close) + ("]" + t);
      assert AllWhiteSpace(sp.open + sp.close);
      CloseRender(sp.open + sp.close, t);
    } else {
      var after := RenderItemsThen(ps[1..], sp.commas, close);
      var x := RenderPartThen(ps[0], after);
      RenderPartStart(ps[0], after);
      ItemsDelimited(ps[1..], sp.commas, sp.close, t);
      ItemRender(ps[0], after);
      TailRender(ps[1..], sp.commas, sp.close, t);
      FirstStep(sp.open, x, ps[0], after, ps[1..], t);
      assert [ps[0]] + ps[1..] == ps;
    }
  }

  /** A sheet name followed by `[`: the parse is decided by the list after the bracket. */
  lemma NameThenList(name: string, rest: string)
    requires |name| >= 1 && forall k :: 1 <= k < |name| ==> name[k] != '['
    ensures List(rest).Parsed? ==> Parse(name + ("[" + rest)) == Ok(ParsedSelector(name, Some(List(rest).value)))
    ensures List(rest).NoMatch? ==> Parse(name + ("[" + rest)) == Err(Malformed)
    ensures List(rest).Thrown? ==> Parse(name + ("[" + rest)) == Err(Overflow)
  {
    var s := name + ("[" + rest);
    var n := SheetNameLength(s);
    assert n == |name| by {
      assert s[|name|] == '[';
      forall k | 1 <= k < |name| ensures s[k] != '[' { assert s[k] == name[k]; }
    }
    assert s[..n] == name;
    assert s[n + 1..] == rest;
  }

  /**
   * Completeness of the grammar: a well-formed selector, written with whitespace chosen
   * independently after `[`, after each comma and before `]`, parses back to itself,
   * whatever text follows the closing bracket.
   */
  lemma ParseRender(sel: ParsedSelector, sp: Spacing, trailing: string)
    requires WellFormed(sel)
    requires sel.parts.Some? ==> SpacingFor(sp, |sel.parts.value|)
    requires sel.parts.None? ==> trailing == ""
    ensures Parse(RenderThen(sel, sp, trailing)) == Ok(sel)
  {
    var s := RenderThen(sel, sp, trailing);
    var name := sel.sheetName;
    match sel.parts
    case None =>
      assert s == name;
      assert '[' !in s[1..] by {
        forall k | 0 <= k < |s[1..]| ensures s[1..][k] != '[' {
          assert s[1..][k] == name[k + 1];
        }
      }
    case Some(ps) =>
      NameThenList(name, RenderListThen(ps, sp, trailing));
      ListRender(ps, sp, trailing);
  }

  // ---------------------------------------------------------------------------
  // The documented examples, and the error cases around them.
  // ---------------------------------------------------------------------------

  /** A bare sheet name has no selector. */
  lemma ExampleNoSelector()
    ensures Parse("Foo") == Ok(ParsedSelector("Foo", None))
  {
  }

  lemma ExampleRange()
    ensures Parse("Foo[1-3]") == Ok(ParsedSelector("Foo", Some([IndexRange(1, 3)])))
  {
    var sp := Spacing("", [], "");
    assert RenderThen(ParsedSelector("Foo", Some([IndexRange(1, 3)])), sp, "") == "Foo[1-3]";
    ParseRender(ParsedSelector("Foo", Some([IndexRange(1, 3)])), sp, "");
  }

  /** Parts keep their written order. */
  lemma ExampleColumnThenRow()
    ensures Parse("Foo[col-2,5]") == Ok(ParsedSelector("Foo", Some([ColumnSpecifier(2), SingleRow(5)])))
  {
    assert NatToString(2) == "2" && NatToString(5) == "5";
    assert [SingleRow(5)][1..] == [];
    var sp := Spacing("", [""], "");
    assert RenderItemsThen([SingleRow(5)], [""], "" + ("]" + "")) == ",5]";
    assert RenderPartThen(ColumnSpecifier(2), ",5]") == "col-2,5]";
    assert RenderThen(ParsedSelector("Foo", Some([ColumnSpecifier(2), SingleRow(5)])), sp, "") == "Foo[col-2,5]";
    ParseRender(ParsedSelector("Foo", Some([ColumnSpecifier(2), SingleRow(5)])), sp, "");
  }

  lemma ExampleNoun()
    ensures Parse("Foo[noun]") == Ok(ParsedSelector("Foo", Some([NounMarker])))
  {
    var sp := Spacing("", [], "");
    assert RenderThen(ParsedSelector("Foo", Some([NounMarker])), sp, "") == "Foo[noun]";
    ParseRender(ParsedSelector("Foo", Some([NounMarker])), sp, "");
  }

  /** Whitespace may differ from one position to the next: none after `[`, one space after the comma, two before `]`. */
  lemma ExampleMixedSpacing()
    ensures Parse("Foo[1, noun  ]") == Ok(ParsedSelector("Foo", Some([SingleRow(1), NounMarker])))
  {
    MixedSpacingRender();
    ParseRender(ParsedSelector("Foo", Some([SingleRow(1), NounMarker])), Spacing("", [" "], "  "), "");
  }

  lemma MixedSpacingRender()
    ensures RenderThen(ParsedSelector("Foo", Some([SingleRow(1), NounMarker])), Spacing("", [" "], "  "), "")
      == "Foo[1, noun  ]"
  {
    var close := "  " + ("]" + "");
    assert [NounMarker][1..] == [] && [" "][1..] == [];
    assert RenderItemsThen([], [], close) == close;
    assert RenderPartThen(NounMarker, close) == "noun" + close;
    var items := RenderItemsThen([NounMarker], [" "], close);
    assert items == "," + (" " + RenderPartThen(NounMarker, RenderItemsThen([], [], close)));
    assert items == ", noun  ]";
    assert NatToString(1) == "1";
    var list := RenderListThen([SingleRow(1), NounMarker], Spacing("", [" "], "  "), "");
    assert [SingleRow(1), NounMarker][1..] == [NounMarker];
    assert list == "" + ("1" + items);
    assert list == "1, noun  ]";
  }

  /** An unterminated list is a parse failure. */
  lemma ExampleUnterminated()
    ensures Parse("Foo[1-2") == Err(Malformed)
  {
    assert "Foo[1-2" == "Foo" + ("[" + "1-2");
    UnterminatedList();
    NameThenList("Foo", "1-2");
  }

  lemma UnterminatedList()
    ensures List("1-2") == NoMatch
  {
    UnterminatedItem();
    assert ItemsAfterFirst("") == NoMatch;
  }

  lemma UnterminatedItem()
    ensures Item("1-2") == Parsed(IndexRange(1, 2), "")
  {
    assert DigitRun("1-2") == 1;
    assert "1-2"[..1] == "1";
    assert UInt("1-2") == Parsed(1, "-2");
    assert "-2"[1..] == "2";
    assert UInt("2") == Parsed(2, "");
  }

  /** A number above the 32-bit range makes `uint.Parse` throw. */
  lemma UIntOverflow(n: nat, t: string)
    requires n > MaxU32
    requires |t| == 0 || !IsAsciiDigit(t[0])
    ensures UInt(NatToString(n) + t) == Thrown
  {
    DigitRunOfDigits(NatToString(n), t);
  }

  /**
   * A selector whose first item is a number above 4294967295 aborts with the overflow
   * exception rather than failing to parse, whatever follows the number.
   */
  lemma OverflowAborts(name: string, n: nat, t: string)
    requires |name| >= 1 && forall k :: 1 <= k < |name| ==> name[k] != '['
    requires n > MaxU32
    requires |t| == 0 || !IsAsciiDigit(t[0])
    ensures Parse(name + ("[" + (NatToString(n) + t))) == Err(Overflow)
  {
    NameThenList(name, NatToString(n) + t);
    var d := NatToString(n);
    assert d[0] == (d + t)[0];
    SkipWhitespaceOver("", d + t);
    UIntOverflow(n, t);
  }

  /** A separator must be followed by an item: a trailing comma fails the parse. */
  lemma ExampleTrailingComma()
    ensures Parse("Foo[1,]") == Err(Malformed)
  {
    assert "Foo[1,]" == "Foo" + ("[" + "1,]");
    TrailingCommaList();
    NameThenList("Foo", "1,]");
  }

  lemma TrailingCommaList()
    ensures List("1,]") == NoMatch
  {
    assert DigitRun("1,]") == 1 && "1,]"[..1] == "1" && "1,]"[1..] == ",]";
    assert Item("1,]") == Parsed(SingleRow(1), ",]");
    assert ",]"[1..] == "]";
    assert Item("]") == NoMatch;
  }

  /** Whitespace is skipped after a comma but not before it. */
  lemma ExampleSpaceBeforeComma()
    ensures Parse("Foo[1 ,2]") == Err(Malformed)
  {
    assert "Foo[1 ,2]" == "Foo" + ("[" + "1 ,2]");
    SpaceBeforeCommaList();
    NameThenList("Foo", "1 ,2]");
  }

  lemma SpaceBeforeCommaList()
    ensures List("1 ,2]") == NoMatch
  {
    assert DigitRun("1 ,2]") == 1 && "1 ,2]"[..1] == "1" && "1 ,2]"[1..] == " ,2]";
    assert Item("1 ,2]") == Parsed(SingleRow(1), " ,2]");
    assert " ,2]"[1..] == ",2]";
    assert SkipWhitespace(" ,2]") == ",2]";
  }

  /** The first character always belongs to the sheet name, even when it is `[`. */
  lemma ExampleLeadingBracket()
    ensures Parse("[1]") == Ok(ParsedSelector("[1]", None))
  {
    assert "[1]"[1..] == "1]";
  }

  /** An empty list is a selector with no parts, distinct from no selector at all. */
  lemma ExampleEmptyList()
    ensures Parse("Foo[ ]") == Ok(ParsedSelector("Foo", Some([])))
  {
    assert "Foo[ ]" == "Foo" + ("[" + " ]");
    EmptyList();
    NameThenList("Foo", " ]");
  }

  lemma EmptyList()
    ensures List(" ]") == Parsed([], "")
  {
    assert SkipWhitespace(" ]") == "]" by { assert " ]"[1..] == "]"; }
    assert "]"[1..] == "";
    assert Item("]") == NoMatch;
  }
}

/**
 * Picking the language of a localised text from an `Accept-Language` header
 * (`LocalisedText::from_codes`). The header is split on `,`, each part on `;`; a part's
 * weight is 1 without a `;`, and otherwise whatever the language tag itself parses to as a
 * float (not the `q` parameter), or 0. The parts are sorted by descending weight and the first
 * one whose primary subtag is `en`, `ja`, `de` or `fr` picks the text; English is the fallback.
 * `ParsePartCorrected` is the evidently intended weighting, by the `q` value.
 *
 * Float parsing enters as a parameter `parse`, with weights as reals. The library sort leaves
 * the order of equal weights unspecified: one admissible order is computed by `SortByWeight`,
 * and `ScanPicksHeaviest` holds for every descending reordering.
 */
module AcceptLanguage {
  import opened Wrappers
  import opened Text

  datatype LocalisedText = LocalisedText(en: string, ja: string, de: string, fr: string)

  /** A language tag and its weight. */
  type Part = (string, real)

  /** The weight of one comma-separated part, and its language tag (the text before any `;`). */
  function ParsePart(part: string, parse: string -> Option<real>): (r: Part)
    ensures r.0 == Split(part, ';')[0]
    ensures ';' !in part ==> r.1 == 1.0
    ensures ';' in part ==> r.1 == parse(r.0).GetOr(0.0)
  {
    var subParts := Split(part, ';');
    JoinSplit(part, ';');
    if |subParts| == 1 then (subParts[0], 1.0)
    else
      match parse(subParts[0])
      case Some(w) => (subParts[0], w)
      case None => (subParts[0], 0.0)
  }

  function ParseParts(parts: seq<string>, parse: string -> Option<real>): (r: seq<Part>)
    ensures |r| == |parts|
    ensures forall k :: 0 <= k < |parts| ==> r[k] == ParsePart(parts[k], parse)
  {
    if |parts| == 0 then [] else [ParsePart(parts[0], parse)] + ParseParts(parts[1..], parse)
  }

  /** The header's parts, in header order. */
  function Parts(val: string, parse: string -> Option<real>): (r: seq<Part>)
    ensures |r| == |Split(val, ',')| && |r| >= 1
  {
    ParseParts(Split(val, ','), parse)
  }

  // ---------------------------------------------------------------------------------------
  // Sorting by descending weight
  // ---------------------------------------------------------------------------------------

  predicate Descending(s: seq<Part>) {
    forall i, j :: 0 <= i < j < |s| ==> s[i].1 >= s[j].1
  }

  /** Inserts `x` before the first lighter part. */
  function Insert(x: Part, s: seq<Part>): (r: seq<Part>)
    ensures multiset(r) == multiset(s) + multiset{x}
  {
    if |s| == 0 || x.1 >= s[0].1 then [x] + s
    else
      assert s == [s[0]] + s[1..];
      [s[0]] + Insert(x, s[1..])
  }

  lemma {:induction false} InsertDescending(x: Part, s: seq<Part>)
    requires Descending(s)
    ensures Descending(Insert(x, s))
  {
    if |s| > 0 && x.1 < s[0].1 {
      InsertDescending(x, s[1..]);
      var r := Insert(x, s[1..]);
      forall j | 0 <= j < |r|
        ensures s[0].1 >= r[j].1
      {
        assert r[j] in multiset(r);
        assert r[j] in multiset(s[1..]) || r[j] == x;
        if r[j] != x {
          var k :| 0 <= k < |s[1..]| && s[1..][k] == r[j];
          assert s[k + 1] == r[j];
        }
      }
      assert Insert(x, s) == [s[0]] + r;
    }
  }

  /** One admissible outcome of the descending unstable sort. */
  function SortByWeight(s: seq<Part>): (r: seq<Part>)
    ensures multiset(r) == multiset(s)
  {
    if |s| == 0 then []
    else
      assert s == [s[0]] + s[1..];
      Insert(s[0], SortByWeight(s[1..]))
  }

  lemma {:induction false} SortByWeightDescending(s: seq<Part>)
    ensures Descending(SortByWeight(s))
  {
    if |s| > 0 {
      SortByWeightDescending(s[1..]);
      InsertDescending(s[0], SortByWeight(s[1..]));
    }
  }

  // ---------------------------------------------------------------------------------------
  // Choosing the text
  // ---------------------------------------------------------------------------------------

  /** The primary subtag: the text before the first `-`, neither trimmed nor case-folded. */
  function Primary(tag: string): string {
    Split(tag, '-')[0]
  }

  predicate Recognised(tag: string) {
    var p := Primary(tag);
    p == "en" || p == "ja" || p == "de" || p == "fr"
  }

  /** The text for a recognised tag. */
  function TextFor(t: LocalisedText, tag: string): (r: string)
    requires Recognised(tag)
    ensures r == t.en || r == t.ja || r == t.de || r == t.fr
  {
    var p := Primary(tag);
    if p == "en" then t.en else if p == "ja" then t.ja else if p == "de" then t.de else t.fr
  }

  /** The text of the first part with a recognised tag, or English. */
  function Scan(t: LocalisedText, parts: seq<Part>): string {
    if |parts| == 0 then t.en
    else if Recognised(parts[0].0) then TextFor(t, parts[0].0)
    else Scan(t, parts[1..])
  }

  /** `from_codes`: parse the parts, sort them by weight, return the first recognised text. */
  method FromCodes(t: LocalisedText, val: string, parse: string -> Option<real>) returns (r: string)
    ensures r == Scan(t, SortByWeight(Parts(val, parse)))
  {
    var parts := SortByWeight(Parts(val, parse));
    var i := 0;
    while i < |parts|
      invariant i <= |parts|
      invariant Scan(t, parts[i..]) == Scan(t, parts)
    {
      var first := Split(parts[i].0, '-')[0];
      assert first == Primary(parts[i..][0].0);
      if first == "en" {
        return t.en;
      } else if first == "ja" {
        return t.ja;
      } else if first == "de" {
        return t.de;
      } else if first == "fr" {
        return t.fr;
      }
      assert parts[i..][1..] == parts[i + 1..];
      i := i + 1;
    }
    return t.en;
  }

  /** The scan stops at the first recognised part, and falls back to English without one. */
  lemma ScanFirstRecognised(t: LocalisedText, parts: seq<Part>)
    ensures (forall j :: 0 <= j < |parts| ==> !Recognised(parts[j].0)) ==> Scan(t, parts) == t.en
    ensures (exists j :: 0 <= j < |parts| && Recognised(parts[j].0)) ==>
      exists m :: 0 <= m < |parts| && Recognised(parts[m].0) && Scan(t, parts) == TextFor(t, parts[m].0) &&
        forall j :: 0 <= j < m ==> !Recognised(parts[j].0)
  {
    if forall j :: 0 <= j < |parts| ==> !Recognised(parts[j].0) {
      ScanNoneRecognised(t, parts);
    } else {
      var j :| 0 <= j < |parts| && Recognised(parts[j].0);
      ScanFoundAt(t, parts, j);
    }
  }

  lemma {:induction false} ScanNoneRecognised(t: LocalisedText, parts: seq<Part>)
    requires forall j :: 0 <= j < |parts| ==> !Recognised(parts[j].0)
    ensures Scan(t, parts) == t.en
  {
    if |parts| > 0 {
      assert forall j :: 0 <= j < |parts| - 1 ==> parts[1..][j] == parts[j + 1];
      ScanNoneRecognised(t, parts[1..]);
    }
  }

  lemma {:induction false} ScanFoundAt(t: LocalisedText, parts: seq<Part>, j: nat)
    requires j < |parts| && Recognised(parts[j].0)
    ensures exists m :: 0 <= m < |parts| && Recognised(parts[m].0) && Scan(t, parts) == TextFor(t, parts[m].0) &&
                        forall i :: 0 <= i < m ==> !Recognised(parts[i].0)
  {
    if Recognised(parts[0].0) {
      assert Scan(t, parts) == TextFor(t, parts[0].0);
    } else {
      var rest := parts[1..];
      assert rest[j - 1] == parts[j];
      ScanFoundAt(t, rest, j - 1);
      var m :| 0 <= m < |rest| && Recognised(rest[m].0) && Scan(t, rest) == TextFor(t, rest[m].0) &&
        forall i :: 0 <= i < m ==> !Recognised(rest[i].0);
      assert rest[m] == parts[m + 1];
      assert forall i :: 1 <= i < m + 1 ==> parts[i] == rest[i - 1];
      assert Scan(t, parts) == Scan(t, rest);
    }
  }

  /**
   * Whatever order the sort gives equal weights: with no recognised tag the result is
   * English; otherwise it is the text of a recognised part that no recognised part outweighs.
   */
  lemma ScanPicksHeaviest(t: LocalisedText, parts: seq<Part>, sorted: seq<Part>)
    requires Descending(sorted) && multiset(sorted) == multiset(parts)
    ensures (forall j :: 0 <= j < |parts| ==> !Recognised(parts[j].0)) ==> Scan(t, sorted) == t.en
    ensures (exists j :: 0 <= j < |parts| && Recognised(parts[j].0)) ==>
      exists k :: 0 <= k < |parts| && Recognised(parts[k].0) && Scan(t, sorted) == TextFor(t, parts[k].0) &&
        forall j :: 0 <= j < |parts| && Recognised(parts[j].0) ==> parts[j].1 <= parts[k].1
  {
    ScanFirstRecognised(t, sorted);
    if forall j :: 0 <= j < |parts| ==> !Recognised(parts[j].0) {
      forall j | 0 <= j < |sorted|
        ensures !Recognised(sorted[j].0)
      {
        assert sorted[j] in multiset(parts);
      }
    } else {
      var j0 :| 0 <= j0 < |parts| && Recognised(parts[j0].0);
      assert parts[j0] in multiset(sorted);
      var m :| 0 <= m < |sorted| && Recognised(sorted[m].0) && Scan(t, sorted) == TextFor(t, sorted[m].0) &&
        forall j :: 0 <= j < m ==> !Recognised(sorted[j].0);
      assert sorted[m] in multiset(parts);
      var k :| 0 <= k < |parts| && parts[k] == sorted[m];
      forall j | 0 <= j < |parts| && Recognised(parts[j].0)
        ensures parts[j].1 <= parts[k].1
      {
        assert parts[j] in multiset(sorted);
        var i :| 0 <= i < |sorted| && sorted[i] == parts[j];
        assert m <= i;
      }
    }
  }

  /** `from_codes` returns one of the four texts, English when no tag is recognised. */
  lemma FromCodesResult(t: LocalisedText, val: string, parse: string -> Option<real>)
    ensures Scan(t, SortByWeight(Parts(val, parse))) in [t.en, t.ja, t.de, t.fr]
    ensures (forall j :: 0 <= j < |Parts(val, parse)| ==> !Recognised(Parts(val, parse)[j].0)) ==>
      Scan(t, SortByWeight(Parts(val, parse))) == t.en
  {
    var parts := Parts(val, parse);
    SortByWeightDescending(parts);
    ScanPicksHeaviest(t, parts, SortByWeight(parts));
  }

  lemma WeightedTag()
    ensures Split("en;q=0.8", ';')[0] == "en"
  {
    var rest := ";q=0.8";
    assert "en;q=0.8" == "en" + rest;
    assert rest[0] == ';';
    SplitPrefix("en", rest, ';');
  }

  /** A weighted English entry gets weight 0, because the tag itself is parsed as the weight. */
  lemma WeightedTagIgnoresQ(parse: string -> Option<real>)
    requires parse("en").None?
    ensures Parts("en;q=0.8", parse) == [("en", 0.0)]
  {
    var p := "en;q=0.8";
    WeightedTag();
    SplitJoin([p], ',');
    assert p[2] == ';';
    var r := ParsePart(p, parse);
    assert r == ("en", 0.0);
    var parts := Parts(p, parse);
    assert |parts| == 1 && parts[0] == r;
  }

  /**
   * The evidently intended weight of a part: the number after `q=` in the parameter that
   * follows the tag (surrounding whitespace trimmed, as the header grammar allows), 1 without
   * a parameter, and 0 when the parameter is not a `q` value or does not parse.
   */
  function ParsePartCorrected(part: string, parse: string -> Option<real>): (r: Part)
    ensures r.0 == ParsePart(part, parse).0
    ensures ';' !in part ==> r.1 == 1.0
    ensures ';' in part ==> |Split(part, ';')| >= 2
    ensures ';' in part && !StartsWith(Trim(Split(part, ';')[1]), "q=") ==> r.1 == 0.0
    ensures ';' in part && StartsWith(Trim(Split(part, ';')[1]), "q=") ==>
      r.1 == parse(Trim(Split(part, ';')[1])[2..]).GetOr(0.0)
  {
    var subParts := Split(part, ';');
    JoinSplit(part, ';');
    if |subParts| == 1 then (subParts[0], 1.0)
    else
      var param := Trim(subParts[1]);
      if !StartsWith(param, "q=") then (subParts[0], 0.0)
      else
        match parse(param[2..])
        case Some(w) => (subParts[0], w)
        case None => (subParts[0], 0.0)
  }

  /**
   * With the `q` value read, `en;q=0.8` weighs 0.8 where the code as written gives it 0, so
   * a header such as `fr;q=0.5,en;q=0.8` no longer falls back to header order.
   */
  lemma WeightedTagCorrected(parse: string -> Option<real>)
    requires parse("0.8") == Some(0.8) && parse("en").None?
    ensures ParsePartCorrected("en;q=0.8", parse) == ("en", 0.8)
    ensures ParsePart("en;q=0.8", parse) == ("en", 0.0)
  {
    var p := "en;q=0.8";
    WeightedTag();
    assert p[2] == ';';
    WeightedTagParameter();
    QParameterTrimmed();
    QParameterValue();
    var r := ParsePartCorrected(p, parse);
    assert r.1 == 0.8;
  }

  /**
   * With the `q` value read, a part `tag;q=value` weighs what `value` parses to, for any tag
   * and any value text free of `;` that does not end in whitespace.
   */
  lemma QValueRead(tag: string, value: string, parse: string -> Option<real>)
    requires ';' !in tag && ';' !in value
    requires |value| > 0 && !IsWhiteSpace(value[|value| - 1])
    ensures ParsePartCorrected(tag + ";q=" + value, parse) == (tag, parse(value).GetOr(0.0))
  {
    var param := "q=" + value;
    assert tag + ";q=" + value == tag + [';'] + param;
    assert ';' !in param by { assert param[0] == 'q' && param[1] == '='; }
    SplitPair(tag, param, ';');
    assert !IsWhiteSpace(param[0]) && param[|param| - 1] == value[|value| - 1];
    TrimKeeps(param);
    assert StartsWith(param, "q=") && param[2..] == value;
  }

  /** `en;q=0.8` splits into the tag and the parameter `q=0.8`. */
  lemma WeightedTagParameter()
    ensures Split("en;q=0.8", ';') == ["en", "q=0.8"]
  {
    assert "en;q=0.8" == "en" + [';'] + "q=0.8";
    SplitPair("en", "q=0.8", ';');
  }

  /** The parameter `q=0.8` is its own trim. */
  lemma QParameterTrimmed()
    ensures Trim("q=0.8") == "q=0.8"
  {
    TrimKeeps("q=0.8");
  }

  /** The parameter `q=0.8` is a `q` value, with value text `0.8`. */
  lemma QParameterValue()
    ensures StartsWith("q=0.8", "q=") && "q=0.8"[2..] == "0.8"
  {
  }

  /** Two separator-free pieces joined by the separator split back into the two. */
  lemma SplitPair(a: string, b: string, sep: char)
    requires sep !in a && sep !in b
    ensures Split(a + [sep] + b, sep) == [a, b]
  {
    var parts := [a, b];
    assert parts[1..] == [b];
    assert Join(parts, [sep]) == a + [sep] + b;
    SplitJoin(parts, sep);
  }

  /** Text that neither starts nor ends with whitespace is its own trim. */
  lemma TrimKeeps(s: string)
    requires |s| > 0 && !IsWhiteSpace(s[0]) && !IsWhiteSpace(s[|s| - 1])
    ensures Trim(s) == s
  {
  }

  /** An empty header is one part with an empty tag, which nothing recognises: English. */
  lemma EmptyHeader(t: LocalisedText, parse: string -> Option<real>)
    ensures Parts("", parse) == [("", 1.0)]
    ensures Scan(t, SortByWeight(Parts("", parse))) == t.en
  {
    assert Split("", '-') == [""];
    assert !Recognised("");
  }
}

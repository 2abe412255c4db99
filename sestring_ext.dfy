/**
 * The server's flattening of a listing's rich text (`SeStringExt::full_text`): literal
 * text is kept, an auto-translate phrase is looked up in the generated (group, key) table,
 * and every other payload is dropped.
 */
module ServerSeString {

  /** The payload kinds the server distinguishes; every other kind is `Other`. */
  datatype Payload =
    | Text(text: string)
    | AutoTranslate(group: nat, key: nat)
    | Other

  /** The generated `AUTO_TRANSLATE` table, as the server reads it: (group, key) to text. */
  type AutoTranslateTable = map<(nat, nat), string>

  /**
   * What one payload contributes: its text, the table's phrase, or nothing. Its contract is
   * the case table itself; what `full_text` promises is stated about `FullText`, in
   * `FullTextSignificant` and the lemmas beside it.
   */
  function Contribution(p: Payload, table: AutoTranslateTable): (r: string)
    ensures p.Text? ==> r == p.text
    ensures p.AutoTranslate? && (p.group, p.key) in table ==> r == table[(p.group, p.key)]
    ensures p.AutoTranslate? && (p.group, p.key) !in table ==> r == ""
    ensures p.Other? ==> r == ""
    ensures r != "" ==> p.Text? || (p.AutoTranslate? && (p.group, p.key) in table)
  {
    match p
    case Text(t) => t
    case AutoTranslate(g, k) => if (g, k) in table then table[(g, k)] else ""
    case Other => ""
  }

  /** `full_text`: the contributions, concatenated in payload order. */
  function FullText(payloads: seq<Payload>, table: AutoTranslateTable): string {
    if |payloads| == 0 then "" else Contribution(payloads[0], table) + FullText(payloads[1..], table)
  }

  /** Flattening distributes over appending payload lists. */
  lemma {:induction false} FullTextAppend(a: seq<Payload>, b: seq<Payload>, table: AutoTranslateTable)
    ensures FullText(a + b, table) == FullText(a, table) + FullText(b, table)
  {
    if |a| == 0 {
      assert a + b == b;
    } else {
      assert (a + b)[1..] == a[1..] + b;
      FullTextAppend(a[1..], b, table);
    }
  }

  /** Only the text and the phrases found in the table matter: dropping the rest changes nothing. */
  function Significant(payloads: seq<Payload>, table: AutoTranslateTable): (r: seq<Payload>)
    ensures |r| <= |payloads|
    ensures forall i :: 0 <= i < |r| ==> r[i].Text? || (r[i].AutoTranslate? && (r[i].group, r[i].key) in table)
  {
    if |payloads| == 0 then []
    else
      var p := payloads[0];
      if p.Other? || (p.AutoTranslate? && (p.group, p.key) !in table) then Significant(payloads[1..], table)
      else [p] + Significant(payloads[1..], table)
  }

  lemma {:induction false} FullTextSignificant(payloads: seq<Payload>, table: AutoTranslateTable)
    ensures FullText(Significant(payloads, table), table) == FullText(payloads, table)
  {
    if |payloads| > 0 {
      FullTextSignificant(payloads[1..], table);
      var p, rest := payloads[0], Significant(payloads[1..], table);
      if p.Other? || (p.AutoTranslate? && (p.group, p.key) !in table) {
        assert Contribution(p, table) == "";
      } else {
        assert Significant(payloads, table) == [p] + rest;
        assert ([p] + rest)[1..] == rest;
      }
    }
  }

  /** A string of text payloads alone flattens to their texts joined. */
  lemma {:induction false} FullTextOfTexts(payloads: seq<Payload>, texts: seq<string>, table: AutoTranslateTable)
    requires |payloads| == |texts|
    requires forall i :: 0 <= i < |payloads| ==> payloads[i] == Text(texts[i])
    ensures FullText(payloads, table) == Joined(texts)
  {
    if |payloads| > 0 {
      FullTextOfTexts(payloads[1..], texts[1..], table);
    }
  }

  function Joined(texts: seq<string>): string {
    if |texts| == 0 then "" else texts[0] + Joined(texts[1..])
  }

  /** A phrase absent from the table leaves no trace in the text. */
  lemma MissingPhraseDropped(before: seq<Payload>, group: nat, key: nat, after: seq<Payload>, table: AutoTranslateTable)
    requires (group, key) !in table
    ensures FullText(before + [AutoTranslate(group, key)] + after, table) == FullText(before + after, table)
  {
    FullTextAppend(before + [AutoTranslate(group, key)], after, table);
    FullTextAppend(before, [AutoTranslate(group, key)], table);
    FullTextAppend(before, after, table);
  }
}

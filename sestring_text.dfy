/**
 * Flattening of the game's rich-text strings (SeString) into plain text, as the
 * locale-table generator does it, and the quote escaping it applies before emitting text.
 */
module SeStringText {

  newtype byte = x: int | 0 <= x < 256

  /**
   * One payload of an SeString: literal text, or an encoded control sequence whose raw
   * bytes start with the start marker and the payload type.
   */
  datatype Payload = TextPayload(raw: string) | ControlPayload(data: seq<byte>)

  type SeString = seq<Payload>

  /** Payload type 0x1F, a dash-like separator; every other control payload is dropped. */
  const DashType: byte := 0x1F

  /**
   * What a single payload contributes to the flattened text. Its contract is the case
   * table itself; what flattening promises is stated about `TextValue` below, in
   * `TextValueAppend` and the lemmas after it.
   */
  function Contribution(p: Payload): (r: string)
    ensures p.TextPayload? ==> r == p.raw
    ensures p.ControlPayload? ==> (r == "-" <==> |p.data| > 1 && p.data[1] == DashType)
    ensures p.ControlPayload? ==> r == "" || r == "-"
  {
    match p
    case TextPayload(raw) => raw
    case ControlPayload(data) => if |data| > 1 && data[1] == DashType then "-" else ""
  }

  /** The contributions of all payloads, joined in payload order. */
  function TextValue(s: SeString): string {
    if |s| == 0 then "" else Contribution(s[0]) + TextValue(s[1..])
  }

  /** Flattening distributes over concatenation of payload lists. */
  lemma {:induction false} TextValueAppend(a: SeString, b: SeString)
    ensures TextValue(a + b) == TextValue(a) + TextValue(b)
  {
    if |a| > 0 {
      assert (a + b)[1..] == a[1..] + b;
      TextValueAppend(a[1..], b);
    } else {
      assert a + b == b;
    }
  }

  /** A string made only of text payloads flattens to the concatenation of their texts. */
  lemma {:induction false} TextValueOfTexts(s: SeString, texts: seq<string>)
    requires |s| == |texts|
    requires forall i :: 0 <= i < |s| ==> s[i] == TextPayload(texts[i])
    ensures TextValue(s) == Concat(texts)
  {
    if |s| > 0 {
      TextValueOfTexts(s[1..], texts[1..]);
    }
  }

  function Concat(texts: seq<string>): string {
    if |texts| == 0 then "" else texts[0] + Concat(texts[1..])
  }

  /** A flattened string is empty exactly when no payload contributes anything. */
  lemma {:induction false} TextValueEmpty(s: SeString)
    ensures TextValue(s) == "" <==> forall i :: 0 <= i < |s| ==> Contribution(s[i]) == ""
  {
    if |s| > 0 {
      TextValueEmpty(s[1..]);
      assert forall i :: 1 <= i < |s| ==> s[i] == s[1..][i - 1];
    }
  }

  /** `Replace("\"", "\\\"")`: a backslash is inserted before every double quote. */
  function Escape(s: string): string {
    if |s| == 0 then ""
    else (if s[0] == '"' then "\\\"" else [s[0]]) + Escape(s[1..])
  }

  /** Reads the escaped form back: a backslash followed by a quote stands for the quote. */
  function Unescape(s: string): string {
    if |s| == 0 then ""
    else if |s| >= 2 && s[0] == '\\' && s[1] == '"' then "\"" + Unescape(s[2..])
    else [s[0]] + Unescape(s[1..])
  }

  /** Escaping loses nothing: unescaping gives the original text back. */
  lemma {:induction false} UnescapeEscape(s: string)
    ensures Unescape(Escape(s)) == s
  {
    if |s| > 0 {
      var rest := Escape(s[1..]);
      UnescapeEscape(s[1..]);
      if s[0] == '"' {
        assert Escape(s) == "\\\"" + rest;
        assert Escape(s)[2..] == rest;
      } else {
        assert Escape(s) == [s[0]] + rest;
        assert Escape(s)[1..] == rest;
        if s[0] == '\\' && |rest| > 0 {
          EscapeStart(s[1..]);
        }
      }
      assert s == [s[0]] + s[1..];
    }
  }

  /** An escaped text never starts with a quote: a quote is always preceded by `\`. */
  lemma EscapeStart(s: string)
    requires |s| > 0
    ensures |Escape(s)| > 0 && Escape(s)[0] != '"'
  {
  }

  /** Escaping keeps the empty text empty and a non-empty text non-empty. */
  lemma EscapeEmpty(s: string)
    ensures |Escape(s)| == 0 <==> |s| == 0
  {
    if |s| > 0 {
      assert |Escape(s)| >= 1;
    }
  }
}

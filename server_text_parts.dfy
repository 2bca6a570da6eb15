/** The server-side text extraction (src/lib/server/ai/utils.ts). Its parts are declared
    `TextPart[]`, so every part has a string text; only the type is tested. */
module ServerTextParts {
  import opened Wrappers
  import opened TextParts

  datatype TextPart = TextPart(kind: string, text: string)

  /** The filter on type "text" followed by the map to the text. */
  function ServerTexts(parts: seq<TextPart>): (texts: seq<string>)
    ensures |texts| <= |parts|
    ensures texts == [] <==> forall i :: 0 <= i < |parts| ==> parts[i].kind != "text"
  {
    if parts == [] then []
    else if parts[0].kind == "text" then [parts[0].text] + ServerTexts(parts[1..])
    else ServerTexts(parts[1..])
  }

  /** `extractTextFromParts` (server): filter on type, map, join. */
  function ServerExtractText(parts: seq<TextPart>): (text: string)
    ensures (forall i :: 0 <= i < |parts| ==> parts[i].kind != "text") ==> text == ""
  {
    Concat(ServerTexts(parts))
  }

  lemma {:induction false} ServerTextsAppend(a: seq<TextPart>, b: seq<TextPart>)
    ensures ServerTexts(a + b) == ServerTexts(a) + ServerTexts(b)
  {
    if a == [] {
      assert a + b == b;
    } else {
      assert (a + b)[1..] == a[1..] + b;
      ServerTextsAppend(a[1..], b);
    }
  }

  /** Server extraction distributes over concatenation of part lists. */
  lemma ServerExtractAppend(a: seq<TextPart>, b: seq<TextPart>)
    ensures ServerExtractText(a + b) == ServerExtractText(a) + ServerExtractText(b)
  {
    ServerTextsAppend(a, b);
    ConcatAppend(ServerTexts(a), ServerTexts(b));
  }

  /** The empty list yields "", a text part yields its text, and a part of any other type
      yields nothing. */
  lemma ServerExtractBase(p: TextPart)
    ensures ServerExtractText([]) == ""
    ensures p.kind == "text" ==> ServerExtractText([p]) == p.text
    ensures p.kind != "text" ==> ServerExtractText([p]) == ""
  {
    assert [p][1..] == [];
  }

  /** A UI part seen as a server part: its text, or "" where the text is absent. */
  function AsTextPart(p: UIPart): TextPart {
    TextPart(p.kind, p.text.GetOr(""))
  }

  /** Both extractions agree on every input. A "text" part without a text is skipped by
      the UI variant and contributes `""` (what `join` makes of `undefined`) to the server
      variant, so the joined strings are equal even where the lists of texts are not. */
  lemma {:induction false} VariantsAgree(parts: seq<UIPart>)
    ensures ServerExtractText(seq(|parts|, i requires 0 <= i < |parts| => AsTextPart(parts[i])))
            == ExtractTextFromParts(parts)
  {
    var converted := seq(|parts|, i requires 0 <= i < |parts| => AsTextPart(parts[i]));
    if parts == [] {
      assert converted == [];
    } else {
      var rest := seq(|parts| - 1, i requires 0 <= i < |parts| - 1 => AsTextPart(parts[1..][i]));
      assert converted == [AsTextPart(parts[0])] + rest;
      assert parts == [parts[0]] + parts[1..];
      VariantsAgree(parts[1..]);
      ServerExtractAppend([AsTextPart(parts[0])], rest);
      ServerExtractBase(AsTextPart(parts[0]));
      ExtractAppend([parts[0]], parts[1..]);
      ExtractBase(parts[0]);
    }
  }
}

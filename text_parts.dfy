/** Text extraction from UI message parts, client and server (src/lib/ai/utils.ts). */
module TextParts {
  import opened Wrappers

  /** A UI message part: its `type` tag and its `text`, which may be absent. */
  datatype UIPart = UIPart(kind: string, text: Option<string>)

  /** `Array.prototype.join("")`: the strings one after another. */
  function Concat(ss: seq<string>): string {
    if ss == [] then "" else ss[0] + Concat(ss[1..])
  }

  /** The filter's type guard: a part of type "text" whose text is a string. */
  predicate IsTextPart(p: UIPart) {
    p.kind == "text" && p.text.Some?
  }

  /** The filter followed by the map: the texts of the text parts, in order. */
  function TextsOf(parts: seq<UIPart>): (texts: seq<string>)
    ensures |texts| <= |parts|
    ensures texts == [] <==> forall i :: 0 <= i < |parts| ==> !IsTextPart(parts[i])
  {
    if parts == [] then []
    else if IsTextPart(parts[0]) then [parts[0].text.value] + TextsOf(parts[1..])
    else TextsOf(parts[1..])
  }

  /** `extractTextFromParts`: filter, map, join. */
  function ExtractTextFromParts(parts: seq<UIPart>): (text: string)
    ensures (forall i :: 0 <= i < |parts| ==> !IsTextPart(parts[i])) ==> text == ""
  {
    Concat(TextsOf(parts))
  }

  lemma {:induction false} ConcatAppend(a: seq<string>, b: seq<string>)
    ensures Concat(a + b) == Concat(a) + Concat(b)
  {
    if a == [] {
      assert a + b == b;
    } else {
      assert (a + b)[1..] == a[1..] + b;
      ConcatAppend(a[1..], b);
    }
  }

  lemma {:induction false} TextsOfAppend(a: seq<UIPart>, b: seq<UIPart>)
    ensures TextsOf(a + b) == TextsOf(a) + TextsOf(b)
  {
    if a == [] {
      assert a + b == b;
    } else {
      assert (a + b)[1..] == a[1..] + b;
      TextsOfAppend(a[1..], b);
    }
  }

  /** Extraction distributes over concatenation of part lists. */
  lemma ExtractAppend(a: seq<UIPart>, b: seq<UIPart>)
    ensures ExtractTextFromParts(a + b) == ExtractTextFromParts(a) + ExtractTextFromParts(b)
  {
    TextsOfAppend(a, b);
    ConcatAppend(TextsOf(a), TextsOf(b));
  }

  /** The empty list yields the empty string, one text part yields its text, and any other
      single part (another type, or a missing text) yields nothing. */
  lemma ExtractBase(p: UIPart)
    ensures ExtractTextFromParts([]) == ""
    ensures IsTextPart(p) ==> ExtractTextFromParts([p]) == p.text.value
    ensures !IsTextPart(p) ==> ExtractTextFromParts([p]) == ""
  {
    assert [p][1..] == [];
  }

  /** Dropping the parts that are not text parts does not change the result. */
  lemma {:induction false} NonTextPartsContributeNothing(parts: seq<UIPart>, q: UIPart)
    requires !IsTextPart(q)
    ensures forall i :: 0 <= i <= |parts| ==>
      ExtractTextFromParts(parts[..i] + [q] + parts[i..]) == ExtractTextFromParts(parts)
  {
    forall i | 0 <= i <= |parts|
      ensures ExtractTextFromParts(parts[..i] + [q] + parts[i..]) == ExtractTextFromParts(parts)
    {
      ExtractAppend(parts[..i] + [q], parts[i..]);
      ExtractAppend(parts[..i], [q]);
      ExtractBase(q);
      ExtractAppend(parts[..i], parts[i..]);
      assert parts[..i] + parts[i..] == parts;
    }
  }
}

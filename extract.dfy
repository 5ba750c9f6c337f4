/**
 * The text step of `extract_text_from_file` that needs no external
 * service: cut the reply down to the span from its first '[' to its last
 * ']', when there is such a span.
 */
module Extract {

  /** `s.find(c)`: the first position of `c`, or -1. */
  function Find(s: string, c: char): (i: int)
    ensures -1 <= i < |s|
    ensures i >= 0 ==> s[i] == c
    ensures forall j :: 0 <= j < (if i == -1 then |s| else i) ==> s[j] != c
  {
    if s == [] then -1
    else if s[0] == c then 0
    else
      var k := Find(s[1..], c);
      assert forall j :: 0 < j < |s| ==> s[j] == s[1..][j - 1];
      if k == -1 then -1 else k + 1
  }

  /** `s.rfind(c)`: the last position of `c`, or -1. */
  function RFind(s: string, c: char): (i: int)
    ensures -1 <= i < |s|
    ensures i >= 0 ==> s[i] == c
    ensures forall j :: 0 <= j < |s| && i < j ==> s[j] != c
  {
    if s == [] then -1
    else if s[|s| - 1] == c then |s| - 1
    else RFind(s[..|s| - 1], c)
  }

  /**
   * The slice: from `find('[')` up to and including `rfind(']')`, when the
   * first '[' exists and the last ']' comes after it; otherwise unchanged.
   * A text it changes becomes the span from the first '[' to the last ']',
   * which is shorter and starts and ends with those brackets.
   */
  function SliceJsonArray(text: string): (r: string)
    ensures |r| <= |text|
    ensures r != text ==> |r| >= 2 && r[0] == '[' && r[|r| - 1] == ']'
    ensures r != text ==> 0 <= Find(text, '[') < RFind(text, ']') && r == text[Find(text, '[')..RFind(text, ']') + 1]
  {
    var start := Find(text, '[');
    var end := RFind(text, ']') + 1;
    if start != -1 && end > start then text[start..end] else text
  }

  /** Some `c` lies after position `i` exactly when the last `c` does. */
  lemma RFindAfter(s: string, c: char, i: int)
    requires i >= -1
    ensures (exists j :: 0 <= j < |s| && i < j && s[j] == c) <==> RFind(s, c) > i
  {
    var k := RFind(s, c);
    if k > i {
      assert 0 <= k < |s| && s[k] == c;
    }
  }

  /**
   * When some ']' follows the first '[', the slice is the span from that
   * '[' to the last ']': it starts with '[' and ends with ']'.
   */
  lemma SliceTaken(text: string)
    requires Find(text, '[') >= 0
    requires exists j :: 0 <= j < |text| && Find(text, '[') < j && text[j] == ']'
    ensures var r := SliceJsonArray(text);
      && |r| >= 2 && r[0] == '[' && r[|r| - 1] == ']'
      && r == text[Find(text, '[')..RFind(text, ']') + 1]
  {
    var start := Find(text, '[');
    RFindAfter(text, ']', start);
    var e := RFind(text, ']');
    assert start < e;
    SliceSpan(text, start, e);
  }

  /** With the first '[' at `start` before the last ']' at `e`, the slice is the span between them. */
  lemma SliceSpan(text: string, start: int, e: int)
    requires start == Find(text, '[') && e == RFind(text, ']') && 0 <= start < e
    ensures var r := SliceJsonArray(text);
      && |r| >= 2 && r[0] == '[' && r[|r| - 1] == ']'
      && r == text[start..e + 1]
  {
    SpanEnds(text, start, e);
  }

  /** The span from a '[' to a later ']' starts with the one and ends with the other. */
  lemma SpanEnds(text: string, start: nat, e: nat)
    requires start < e < |text| && text[start] == '[' && text[e] == ']'
    ensures var r := text[start..e + 1]; |r| >= 2 && r[0] == '[' && r[|r| - 1] == ']'
  {
  }

  /** Without a '[', or without a ']' after the first one, the text is left as it is. */
  lemma SliceSkipped(text: string)
    requires Find(text, '[') == -1 || !(exists j :: 0 <= j < |text| && Find(text, '[') < j && text[j] == ']')
    ensures SliceJsonArray(text) == text
  {
    var start := Find(text, '[');
    if start >= 0 {
      var e := RFind(text, ']');
      RFindAfter(text, ']', start);
      assert e <= start;
      assert e != start by {
        assert text[start] == '[';
      }
    }
  }

  /** Slicing twice gives the same text as slicing once. */
  lemma SliceIdempotent(text: string)
    ensures SliceJsonArray(SliceJsonArray(text)) == SliceJsonArray(text)
  {
    var r := SliceJsonArray(text);
    var start := Find(text, '[');
    RFindAfter(text, ']', start);
    if start >= 0 && RFind(text, ']') > start {
      SliceTaken(text);
      assert Find(r, '[') == 0;
      assert RFind(r, ']') == |r| - 1;
      assert r[0..|r|] == r;
    } else {
      assert r == text;
    }
  }
}

/**
 * `apply_formula`: one output row per policy record, in input order. Each
 * record's segment, payin value and payin category are read, its line of
 * business determined, the first firing rule looked up and the payout
 * computed; a record that raises on the way yields an "Error" row instead.
 */
module Batch {
  import opened Wrappers
  import opened Text
  import opened Values
  import opened Payin
  import opened LineOfBusiness
  import opened Rules

  /** `Calculated Payout`: a percentage, or the text "Error" for a record that raised. */
  datatype Payout = Percent(value: real) | ErrorMark

  /**
   * One entry of `calculated_data`. `payin` is the number the `payin` column
   * shows as a percentage (0.00 in an error row); `policyType` and
   * `location` are passed through from the record as they are.
   */
  datatype Row = Row(
    segment: string,
    policyType: Value,
    location: Value,
    payin: real,
    remark: string,
    payout: Payout,
    formulaUsed: string,
    explanation: string)

  const NO_MATCH: string := "No matching rule"
  const ERROR: string := "Error"

  /**
   * `float(record.get('Payin_Value', 0))`; the annotation, when present,
   * overrides the JSON. An annotated record reads its annotation, a record
   * without the key reads 0, and only a JSON value can raise.
   */
  function PayinOf(r: Record): (p: Result<real, Fault>)
    ensures r.payinValue.Some? ==> p == Ok(r.payinValue.value)
    ensures r.payinValue.None? && "Payin_Value" !in r.fields ==> p == Ok(0.0)
    ensures p.Err? ==> r.payinValue.None? && "Payin_Value" in r.fields
  {
    if r.payinValue.Some? then Ok(r.payinValue.value) else ToFloat(Get(r, "Payin_Value", Int(0)))
  }

  /**
   * `record.get('Payin_Category', '').strip()`, which raises on anything but
   * a string: an annotated record reads back its annotation and a JSON
   * string is read stripped, "" when the key is absent, and reading fails
   * exactly when the JSON holds a non-string there.
   */
  function CategoryOf(r: Record): (c: Result<string, Fault>)
    ensures c.Ok? ==> Trimmed(c.value)
    ensures r.payinCategory.Some? ==> c == Ok(Strip(r.payinCategory.value))
    ensures r.payinCategory.None? && "Payin_Category" in r.fields && r.fields["Payin_Category"].Str? ==>
      c == Ok(Strip(r.fields["Payin_Category"].s))
    ensures r.payinCategory.None? && "Payin_Category" !in r.fields ==> c == Ok("")
    ensures c.Err? <==> r.payinCategory.None? && "Payin_Category" in r.fields && !r.fields["Payin_Category"].Str?
  {
    if r.payinCategory.Some? then Ok(Strip(r.payinCategory.value))
    else match Get(r, "Payin_Category", Str(""))
      case Str(s) => Ok(Strip(s))
      case v => Err(NoStrip(v))
  }

  /** `str(record.get('segment', '')).strip()`: stripped, and "" when the key is absent. */
  function SegmentOf(r: Record): (s: string)
    ensures Trimmed(s)
    ensures "segment" !in r.fields ==> s == ""
    ensures "segment" in r.fields && r.fields["segment"].Str? ==> s == Strip(r.fields["segment"].s)
  {
    Strip(PyStr(Get(r, "segment", Str(""))))
  }

  /** `[f(x) for x in xs if keep(x)]`. */
  function FilterMap<T, U>(xs: seq<T>, keep: T -> bool, f: T -> U): (ys: seq<U>)
    ensures |ys| <= |xs|
    ensures xs != [] && keep(xs[0]) ==> ys != [] && ys[0] == f(xs[0])
    decreases |xs|
  {
    if xs == [] then [] else (if keep(xs[0]) then [f(xs[0])] else []) + FilterMap(xs[1..], keep, f)
  }

  /** Nothing is kept exactly when no element passes `keep`. */
  lemma {:induction false} FilterMapEmpty<T, U>(xs: seq<T>, keep: T -> bool, f: T -> U)
    ensures FilterMap(xs, keep, f) == [] <==> forall i :: 0 <= i < |xs| ==> !keep(xs[i])
    decreases |xs|
  {
    if xs != [] {
      FilterMapEmpty(xs[1..], keep, f);
      assert forall i :: 1 <= i < |xs| ==> xs[i] == xs[1..][i - 1];
    }
  }

  /** Filtering and mapping a concatenation keeps the order of the pieces. */
  lemma {:induction false} FilterMapAppend<T, U>(a: seq<T>, b: seq<T>, keep: T -> bool, f: T -> U)
    ensures FilterMap(a + b, keep, f) == FilterMap(a, keep, f) + FilterMap(b, keep, f)
    decreases |a|
  {
    if a != [] {
      var head := if keep(a[0]) then [f(a[0])] else [];
      assert (a + b)[0] == a[0] && (a + b)[1..] == a[1..] + b;
      calc {
        FilterMap(a + b, keep, f);
        head + FilterMap(a[1..] + b, keep, f);
        { FilterMapAppend(a[1..], b, keep, f); }
        head + (FilterMap(a[1..], keep, f) + FilterMap(b, keep, f));
        (head + FilterMap(a[1..], keep, f)) + FilterMap(b, keep, f);
      }
    } else {
      assert a + b == b;
    }
  }

  /** The index of the element output `j` was made from. */
  function FilterMapSource<T, U>(xs: seq<T>, keep: T -> bool, f: T -> U, j: nat): (i: nat)
    requires j < |FilterMap(xs, keep, f)|
    ensures i < |xs| && keep(xs[i]) && FilterMap(xs, keep, f)[j] == f(xs[i])
    decreases |xs|
  {
    if keep(xs[0]) && j == 0 then 0
    else
      var k := if keep(xs[0]) then j - 1 else j;
      var rest := FilterMap(xs[1..], keep, f);
      assert FilterMap(xs, keep, f) == (if keep(xs[0]) then [f(xs[0])] else []) + rest;
      assert FilterMap(xs, keep, f)[j] == rest[k];
      var i := FilterMapSource(xs[1..], keep, f, k);
      assert xs[i + 1] == xs[1..][i];
      i + 1
  }

  /** `str(x).strip()`. */
  function StrippedText(x: Value): string {
    Strip(PyStr(x))
  }

  /**
   * The parts `'; '.join(str(x).strip() for x in items if x)` joins: no
   * more than there are items, and the first item's text first when that
   * item is truthy. The lemmas below state the rest of the contents.
   */
  function RemarkParts(items: seq<Value>): (parts: seq<string>)
    ensures |parts| <= |items|
    ensures items != [] && Truthy(items[0]) ==> parts != [] && parts[0] == Strip(PyStr(items[0]))
  {
    FilterMap(items, Truthy, StrippedText)
  }

  /** There are no parts exactly when no item is truthy. */
  lemma RemarkPartsEmpty(items: seq<Value>)
    ensures RemarkParts(items) == [] <==> forall i :: 0 <= i < |items| ==> !Truthy(items[i])
  {
    FilterMapEmpty(items, Truthy, StrippedText);
  }

  /** The parts keep the order of the items: those of earlier items come first. */
  lemma RemarkPartsAppend(a: seq<Value>, b: seq<Value>)
    ensures RemarkParts(a + b) == RemarkParts(a) + RemarkParts(b)
  {
    FilterMapAppend(a, b, Truthy, StrippedText);
  }

  /** The item part `j` comes from: a truthy item whose stripped text it is. */
  function RemarkPartSource(items: seq<Value>, j: nat): (i: nat)
    requires j < |RemarkParts(items)|
    ensures i < |items| && Truthy(items[i]) && RemarkParts(items)[j] == Strip(PyStr(items[i]))
  {
    FilterMapSource(items, Truthy, StrippedText, j)
  }

  /**
   * The `remark` column: a list is joined with "; ", anything else is
   * `str()`-ed. A string stays as it is; a list without a truthy item gives
   * ""; a list with one truthy item gives that item's stripped text.
   */
  function RemarkText(v: Value): (t: string)
    ensures v.Str? ==> t == v.s
    ensures v.List? && (forall i :: 0 <= i < |v.items| ==> !Truthy(v.items[i])) ==> t == ""
    ensures v.List? && |v.items| == 1 && Truthy(v.items[0]) ==> t == Strip(PyStr(v.items[0]))
  {
    if v.List? then RemarkPartsEmpty(v.items); Join("; ", RemarkParts(v.items)) else PyStr(v)
  }

  /** The explanation a record gets when no rule fires. */
  function NoRuleExplanation(lob: Lob, segment: string, category: string): string {
    "No rule for LOB=" + lob.Name() + ", Segment='" + segment + "', PayinCat='" + category + "'"
  }

  /**
   * The row of a record whose processing raised `f`: payout and formula
   * "Error", payin 0, the segment "Unknown" when the record has none, and
   * the exception's message as the explanation.
   */
  function ErrorRow(r: Record, f: Fault): (row: Row)
    ensures row.payout == ErrorMark && row.formulaUsed == ERROR && row.payin == 0.0
    ensures "segment" !in r.fields ==> row.segment == "Unknown"
    ensures row.explanation == "Error: " + Message(f)
  {
    Row(PyStr(Get(r, "segment", Str("Unknown"))), Get(r, "policy_type", Str("Comp")), Get(r, "location", Str("N/A")),
        0.0, "Processing Error", ErrorMark, ERROR, "Error: " + Message(f))
  }

  /**
   * The row `apply_formula` produces for one record: the specification the
   * per-record loop body is proved against. The payout column says "Error"
   * exactly when the formula column does, and an error row shows payin 0.
   */
  function RowFor(r: Record): (row: Row)
    ensures row.payout.ErrorMark? <==> row.formulaUsed == ERROR
    ensures row.payout.ErrorMark? ==> row.payin == 0.0 && row.remark == "Processing Error"
  {
    match PayinOf(r)
    case Err(f) => ErrorRow(r, f)
    case Ok(payin) =>
      match CategoryOf(r)
      case Err(f) => ErrorRow(r, f)
      case Ok(category) =>
        var segment := SegmentOf(r);
        var lob := DetermineLob(segment);
        var remark := RemarkText(Get(r, "remark", Str("")));
        var policyType := Get(r, "policy_type", Str("Comp"));
        var location := Get(r, "location", Str("N/A"));
        match FirstFiring(FORMULA_DATA, lob, CleanSegment(segment), category, 0)
        case None =>
          Row(segment, policyType, location, payin, remark, Percent(payin), NO_MATCH,
              NoRuleExplanation(lob, segment, category))
        case Some(k) =>
          NoMatchIsNotAPo(k);
          Row(segment, policyType, location, payin, remark, Percent(MatchedPayout(FORMULA_DATA[k].po, payin)),
              FORMULA_DATA[k].po, MatchedExplanation(lob, FORMULA_DATA[k], category))
  }

  /**
   * The body of the per-record `try`: read the fields, find the rule, compute
   * the payout, and build the row; a fault raised while reading the payin
   * value or the category turns into the error row.
   */
  method ComputeRow(r: Record) returns (row: Row)
    ensures row == RowFor(r)
  {
    var segment := SegmentOf(r);
    var payinValue := PayinOf(r);
    if payinValue.Err? {
      return ErrorRow(r, payinValue.error);
    }
    var category := CategoryOf(r);
    if category.Err? {
      return ErrorRow(r, category.error);
    }
    var lob := DetermineLob(segment);
    var segmentClean := CleanSegment(segment);
    var matched, matchedExplanation := MatchRule(lob, segmentClean, category.value);
    var calculatedPayout: real;
    var formulaUsed: string;
    var ruleExplanation: string;
    if matched.Some? {
      calculatedPayout := ComputePayout(matched.value.po, payinValue.value);
      formulaUsed := matched.value.po;
      ruleExplanation := matchedExplanation;
    } else {
      calculatedPayout := payinValue.value;
      formulaUsed := NO_MATCH;
      ruleExplanation := NoRuleExplanation(lob, segment, category.value);
    }
    var remark := RemarkText(Get(r, "remark", Str("")));
    row := Row(segment, Get(r, "policy_type", Str("Comp")), Get(r, "location", Str("N/A")),
               payinValue.value, remark, Percent(calculatedPayout), formulaUsed, ruleExplanation);
  }

  /**
   * `apply_formula`: an empty input gives no rows; otherwise one row per
   * record, in the records' order, each computed on its own record alone.
   */
  method ApplyFormula(records: seq<Record>) returns (rows: seq<Row>)
    ensures |rows| == |records|
    ensures forall i :: 0 <= i < |records| ==> rows[i] == RowFor(records[i])
  {
    if records == [] {
      return [];
    }
    rows := [];
    var i := 0;
    while i < |records|
      invariant 0 <= i <= |records|
      invariant |rows| == i
      invariant forall j :: 0 <= j < i ==> rows[j] == RowFor(records[j])
    {
      var row := ComputeRow(records[i]);
      MapExtend(records, rows, row, RowFor, i);
      rows := rows + [row];
      i := i + 1;
    }
  }

  /** `[f(x) for x in xs]` */
  function Map<A, B>(f: A -> B, xs: seq<A>): (ys: seq<B>)
    ensures |ys| == |xs| && forall i :: 0 <= i < |xs| ==> ys[i] == f(xs[i])
  {
    seq(|xs|, i requires 0 <= i < |xs| => f(xs[i]))
  }

  /** A sequence that agrees with `f` on every element of `xs` is `Map(f, xs)`. */
  lemma MapIs<A, B>(f: A -> B, xs: seq<A>, ys: seq<B>)
    requires |ys| == |xs| && forall i :: 0 <= i < |xs| ==> ys[i] == f(xs[i])
    ensures ys == Map(f, xs)
  {
  }

  /** Appending the next input's image keeps every output paired with its input. */
  lemma MapExtend<A, B>(xs: seq<A>, ys: seq<B>, y: B, f: A -> B, i: nat)
    requires i < |xs| && |ys| == i && y == f(xs[i])
    requires forall j :: 0 <= j < i ==> ys[j] == f(xs[j])
    ensures forall j :: 0 <= j < i + 1 ==> (ys + [y])[j] == f(xs[j])
  {
  }

  // ---------------------------------------------------------------------
  // What a row says

  /** The formula column of a row that did not raise comes from the table or says no rule matched. */
  lemma NoMatchIsNotAPo(k: nat)
    requires k < |FORMULA_DATA|
    ensures FORMULA_DATA[k].po != NO_MATCH && FORMULA_DATA[k].po != ERROR
  {
    RulePoListed(k);
  }

  /**
   * A row is an error row exactly when reading the payin value or the
   * category raised: its payout is "Error" then, and its formula column is
   * "Error" in that case only.
   */
  lemma ErrorRowIff(r: Record)
    ensures RowFor(r).payout.ErrorMark? <==> PayinOf(r).Err? || CategoryOf(r).Err?
    ensures RowFor(r).formulaUsed == ERROR <==> PayinOf(r).Err? || CategoryOf(r).Err?
  {
    if PayinOf(r).Ok? && CategoryOf(r).Ok? {
      var segment := SegmentOf(r);
      var ff := FirstFiring(FORMULA_DATA, DetermineLob(segment), CleanSegment(segment), CategoryOf(r).value, 0);
      if ff.Some? {
        NoMatchIsNotAPo(ff.value);
      }
    }
  }

  /**
   * A row that did not raise either names the first firing rule's PO, with
   * the clamped payout and an explanation of the match, or says no rule
   * matched and carries the payin over unchanged.
   */
  lemma RowFollowsFirstMatch(r: Record)
    requires PayinOf(r).Ok? && CategoryOf(r).Ok?
    ensures var segment := SegmentOf(r);
      var lob := DetermineLob(segment);
      var ff := FirstFiring(FORMULA_DATA, lob, CleanSegment(segment), CategoryOf(r).value, 0);
      var row := RowFor(r);
      && row.segment == segment
      && row.payin == PayinOf(r).value
      && (ff.None? <==> row.formulaUsed == NO_MATCH)
      && (ff.None? ==> row.payout == Percent(row.payin))
      && (ff.Some? ==>
            && row.formulaUsed == FORMULA_DATA[ff.value].po
            && row.payout == Percent(MatchedPayout(FORMULA_DATA[ff.value].po, row.payin))
            && row.explanation == MatchedExplanation(lob, FORMULA_DATA[ff.value], CategoryOf(r).value))
  {
    var segment := SegmentOf(r);
    var ff := FirstFiring(FORMULA_DATA, DetermineLob(segment), CleanSegment(segment), CategoryOf(r).value, 0);
    if ff.Some? {
      NoMatchIsNotAPo(ff.value);
    }
  }

  /** The row of a record, with payin `v` and category `category`, for which no rule fires. */
  lemma UnmatchedRowOf(r: Record, v: real, category: string)
    requires PayinOf(r) == Ok(v) && CategoryOf(r) == Ok(category)
    requires FirstFiring(FORMULA_DATA, DetermineLob(SegmentOf(r)), CleanSegment(SegmentOf(r)), category, 0) == None
    ensures RowFor(r).formulaUsed == NO_MATCH && RowFor(r).payout == Percent(v) && RowFor(r).payin == v
  {
  }

  /** The row of a record whose first firing rule is the k-th. */
  lemma MatchedRow(r: Record, k: nat)
    requires PayinOf(r).Ok? && CategoryOf(r).Ok?
    requires FirstFiring(FORMULA_DATA, DetermineLob(SegmentOf(r)), CleanSegment(SegmentOf(r)), CategoryOf(r).value, 0) == Some(k)
    ensures RowFor(r).formulaUsed == FORMULA_DATA[k].po
    ensures RowFor(r).payin == PayinOf(r).value
    ensures RowFor(r).payout == Percent(MatchedPayout(FORMULA_DATA[k].po, PayinOf(r).value))
  {
  }

  /**
   * Payout bounds of every row that did not raise: never above a
   * non-negative payin, and never negative when the payin is not.
   * A matched row is never negative at all; an unmatched row keeps
   * whatever payin it had, negative or not.
   */
  lemma RowPayoutBounded(r: Record)
    requires RowFor(r).payout.Percent?
    ensures RowFor(r).payin >= 0.0 ==> 0.0 <= RowFor(r).payout.value <= RowFor(r).payin
    ensures RowFor(r).formulaUsed != NO_MATCH ==> RowFor(r).payout.value >= 0.0
  {
    ErrorRowIff(r);
    RowFollowsFirstMatch(r);
  }

  /** The formula column of every row is one of the table's PO texts, "No matching rule" or "Error". */
  lemma RowFormulaListed(r: Record)
    ensures RowFor(r).formulaUsed in TABLE_POS + [NO_MATCH, ERROR]
  {
    if PayinOf(r).Ok? && CategoryOf(r).Ok? {
      var segment := SegmentOf(r);
      var ff := FirstFiring(FORMULA_DATA, DetermineLob(segment), CleanSegment(segment), CategoryOf(r).value, 0);
      if ff.Some? {
        RulePoListed(ff.value);
      }
    }
  }
}

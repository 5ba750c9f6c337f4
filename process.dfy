/**
 * The record-handling steps of `process_files`: reject an empty extraction
 * or empty data, wrap a single record into a list, annotate every record in
 * place with its payin value and category, run `apply_formula`, and count
 * the rows per formula in `formula_summary`.
 */
module Processing {
  import opened Wrappers
  import opened Values
  import opened Payin
  import opened Rules
  import opened Batch
  import opened Text

  // ---------------------------------------------------------------------
  // Payin annotation

  /** `record['Payin_Value'], record['Payin_Category'] = classify_payin(record.get('payin', 0))` */
  function Annotate(r: Record): (a: Record)
    ensures a.fields == r.fields
    ensures a.payinValue == Some(ClassifyPayin(Get(r, "payin", Int(0))).0)
    ensures a.payinCategory == Some(ClassifyPayin(Get(r, "payin", Int(0))).1.Label())
  {
    var c := ClassifyPayin(Get(r, "payin", Int(0)));
    r.(payinValue := Some(c.0), payinCategory := Some(c.1.Label()))
  }

  /** An element of the parsed JSON list: a dict, or anything else. */
  datatype Element = Obj(record: Record) | NotObj(v: Value)

  /**
   * What `json.loads` returned: a single dict, a list, or any other JSON
   * value (a scalar, which the steps below reject).
   */
  datatype Doc = Object(record: Record) | Array(elements: seq<Element>) | Scalar(v: Value)

  predicate AllObjects(es: seq<Element>) {
    forall i :: 0 <= i < |es| ==> es[i].Obj?
  }

  function Unwrap(es: seq<Element>): (rs: seq<Record>)
    requires AllObjects(es)
    ensures |rs| == |es| && forall i :: 0 <= i < |es| ==> rs[i] == es[i].record
  {
    seq(|es|, i requires 0 <= i < |es| => es[i].record)
  }

  /**
   * The annotation loop, in place. `record.get` on an element that is not a
   * dict raises; the loop then stops with the elements before it annotated.
   * It succeeds exactly when every element is a dict, and then every
   * record is annotated and nothing else has changed.
   */
  method AnnotatePayins(a: array<Element>) returns (ok: bool)
    modifies a
    ensures ok <==> AllObjects(old(a[..]))
    ensures ok ==> forall i :: 0 <= i < a.Length ==> a[i] == Obj(Annotate(old(a[i]).record))
    ensures forall i :: 0 <= i < a.Length ==>
      a[i] == old(a[i]) || (old(a[i]).Obj? && a[i] == Obj(Annotate(old(a[i]).record)))
  {
    ok := UpdateRecords(a, Annotate);
  }

  /**
   * The loop of `AnnotatePayins` for any per-record update `f`: each dict,
   * in order, is replaced by its update, until an element that is not a
   * dict stops the loop.
   */
  method UpdateRecords(a: array<Element>, f: Record -> Record) returns (ok: bool)
    modifies a
    ensures ok <==> AllObjects(old(a[..]))
    ensures ok ==> forall i :: 0 <= i < a.Length ==> a[i] == Obj(f(old(a[i]).record))
    ensures forall i :: 0 <= i < a.Length ==>
      a[i] == old(a[i]) || (old(a[i]).Obj? && a[i] == Obj(f(old(a[i]).record)))
  {
    var i := 0;
    while i < a.Length
      invariant 0 <= i <= a.Length
      invariant forall j :: 0 <= j < i ==> old(a[j]).Obj?
      invariant forall j :: 0 <= j < i ==> a[j] == Obj(f(old(a[j]).record))
      invariant forall j :: i <= j < a.Length ==> a[j] == old(a[j])
    {
      if a[i].NotObj? {
        return false;
      }
      a[i] := Obj(f(a[i].record));
      i := i + 1;
    }
    return true;
  }

  // ---------------------------------------------------------------------
  // formula_summary

  /** `formula_summary`: each formula text with its count, in first-seen order (a dict's order). */
  type Summary = seq<(string, nat)>

  /** `formula_summary.get(key, 0)` */
  function Lookup(s: Summary, key: string): nat {
    if s == [] then 0 else if s[0].0 == key then s[0].1 else Lookup(s[1..], key)
  }

  /** `formula_summary[key] = formula_summary.get(key, 0) + 1` */
  function Bump(s: Summary, key: string): Summary {
    if s == [] then [(key, 1)]
    else if s[0].0 == key then [(key, s[0].1 + 1)] + s[1..]
    else [s[0]] + Bump(s[1..], key)
  }

  /** The summary after counting `rows` in order. */
  function SummaryOf(rows: seq<Row>): Summary {
    if rows == [] then [] else Bump(SummaryOf(rows[..|rows| - 1]), rows[|rows| - 1].formulaUsed)
  }

  /** The number of rows whose formula column is `key`. */
  function CountOf(rows: seq<Row>, key: string): nat {
    if rows == [] then 0
    else CountOf(rows[..|rows| - 1], key) + (if rows[|rows| - 1].formulaUsed == key then 1 else 0)
  }

  /** The sum of all counts. */
  function Total(s: Summary): nat {
    if s == [] then 0 else s[0].1 + Total(s[1..])
  }

  /** The formulas a summary has an entry for. */
  function Keys(s: Summary): set<string> {
    if s == [] then {} else {s[0].0} + Keys(s[1..])
  }

  /** A well-formed summary: each key once, every count positive. */
  predicate WellFormed(s: Summary) {
    s == [] || (s[0].0 !in Keys(s[1..]) && s[0].1 > 0 && WellFormed(s[1..]))
  }

  lemma {:induction false} BumpLookup(s: Summary, key: string, other: string)
    ensures Lookup(Bump(s, key), other) == Lookup(s, other) + (if other == key then 1 else 0)
    decreases |s|
  {
    if s != [] && s[0].0 != key {
      BumpLookup(s[1..], key, other);
    }
  }

  lemma {:induction false} BumpTotal(s: Summary, key: string)
    ensures Total(Bump(s, key)) == Total(s) + 1
    decreases |s|
  {
    if s != [] && s[0].0 != key {
      BumpTotal(s[1..], key);
    }
  }

  lemma {:induction false} BumpKeys(s: Summary, key: string)
    ensures Keys(Bump(s, key)) == Keys(s) + {key}
    decreases |s|
  {
    if s != [] {
      if s[0].0 == key {
        assert Bump(s, key)[1..] == s[1..];
      } else {
        BumpKeys(s[1..], key);
        assert Bump(s, key)[1..] == Bump(s[1..], key);
      }
    }
  }

  lemma {:induction false} BumpWellFormed(s: Summary, key: string)
    requires WellFormed(s)
    ensures WellFormed(Bump(s, key))
    decreases |s|
  {
    if s != [] {
      if s[0].0 == key {
        assert Bump(s, key)[1..] == s[1..];
      } else {
        BumpWellFormed(s[1..], key);
        BumpKeys(s[1..], key);
        assert Bump(s, key)[1..] == Bump(s[1..], key);
      }
    }
  }

  /** A key has an entry exactly when it has been counted at least once. */
  lemma {:induction false} KeysCounted(s: Summary, key: string)
    requires WellFormed(s)
    ensures key in Keys(s) <==> Lookup(s, key) > 0
    decreases |s|
  {
    if s != [] {
      KeysCounted(s[1..], key);
    }
  }

  /** Each formula's count in the summary is the number of rows that used it. */
  lemma {:induction false} SummaryCounts(rows: seq<Row>, key: string)
    ensures Lookup(SummaryOf(rows), key) == CountOf(rows, key)
    decreases |rows|
  {
    if rows != [] {
      SummaryCounts(rows[..|rows| - 1], key);
      BumpLookup(SummaryOf(rows[..|rows| - 1]), rows[|rows| - 1].formulaUsed, key);
    }
  }

  /** The counts add up to the number of rows: every row is counted once. */
  lemma {:induction false} SummaryTotal(rows: seq<Row>)
    ensures Total(SummaryOf(rows)) == |rows|
    decreases |rows|
  {
    if rows != [] {
      SummaryTotal(rows[..|rows| - 1]);
      BumpTotal(SummaryOf(rows[..|rows| - 1]), rows[|rows| - 1].formulaUsed);
    }
  }

  /** The summary lists each formula once, with a positive count. */
  lemma {:induction false} SummaryWellFormed(rows: seq<Row>)
    ensures WellFormed(SummaryOf(rows))
    decreases |rows|
  {
    if rows != [] {
      SummaryWellFormed(rows[..|rows| - 1]);
      BumpWellFormed(SummaryOf(rows[..|rows| - 1]), rows[|rows| - 1].formulaUsed);
    }
  }

  /**
   * The counting loop over `calculated_data`. Its result has one entry per
   * distinct formula, each with a positive count, the counts agreeing with
   * the rows and adding up to the number of rows.
   */
  method FormulaSummary(rows: seq<Row>) returns (summary: Summary)
    ensures summary == SummaryOf(rows)
    ensures WellFormed(summary) && Total(summary) == |rows|
    ensures forall key :: Lookup(summary, key) == CountOf(rows, key)
    ensures forall key :: key in Keys(summary) <==> CountOf(rows, key) > 0
  {
    summary := [];
    var i := 0;
    while i < |rows|
      invariant 0 <= i <= |rows|
      invariant summary == SummaryOf(rows[..i])
    {
      assert rows[..i + 1][..i] == rows[..i];
      summary := Bump(summary, rows[i].formulaUsed);
      i := i + 1;
    }
    assert rows[..|rows|] == rows;
    SummaryWellFormed(rows);
    SummaryTotal(rows);
    forall key
      ensures Lookup(summary, key) == CountOf(rows, key)
      ensures key in Keys(summary) <==> CountOf(rows, key) > 0
    {
      SummaryCounts(rows, key);
      KeysCounted(summary, key);
    }
  }

  // ---------------------------------------------------------------------
  // process_files

  /** The exceptions `process_files` raises before any output is rendered. */
  datatype BatchError =
    | NoTextExtracted     // "No text extracted from image"
    | InvalidJson         // json.loads failed
    | NoPolicyData        // "No policy data found"
    | NotRecords          // an element is not a dict, or the value is not a list
    | NoDataAfterFormula  // "No data after formula application"

  datatype Metrics = Metrics(
    totalRecords: nat,
    avgPayin: real,
    uniqueSegments: nat,
    companyName: string,
    formulaSummary: Summary)

  datatype Report = Report(
    extractedText: string,
    parsedData: seq<Record>,
    calculatedData: seq<Row>,
    formulaData: seq<Rule>,
    metrics: Metrics)

  function Sum(xs: seq<real>): real {
    if xs == [] then 0.0 else Sum(xs[..|xs| - 1]) + xs[|xs| - 1]
  }

  /** `[r['Payin_Value'] for r in policy_data]` over annotated records. */
  function PayinColumn(rs: seq<Record>): (xs: seq<real>)
    requires forall i :: 0 <= i < |rs| ==> rs[i].payinValue.Some?
    ensures |xs| == |rs| && forall i :: 0 <= i < |rs| ==> xs[i] == rs[i].payinValue.value
  {
    seq(|rs|, i requires 0 <= i < |rs| => rs[i].payinValue.value)
  }

  /** `set([r['segment'] for r in calculated_data])` */
  function SegmentSet(rows: seq<Row>): set<string> {
    if rows == [] then {} else SegmentSet(rows[..|rows| - 1]) + {rows[|rows| - 1].segment}
  }

  /**
   * `unique_segments`: the number of distinct segments among the rows, at
   * least one for a non-empty batch and at most one per row.
   */
  function UniqueSegments(rows: seq<Row>): (n: nat)
    ensures n == |set i | 0 <= i < |rows| :: rows[i].segment|
    ensures n <= |rows|
    ensures rows != [] ==> n >= 1
  {
    SegmentSetSize(rows);
    SegmentSetIs(rows);
    |SegmentSet(rows)|
  }

  /** `SegmentSet` holds the segment of every row and nothing else. */
  lemma {:induction false} SegmentSetIs(rows: seq<Row>)
    ensures SegmentSet(rows) == set i | 0 <= i < |rows| :: rows[i].segment
    decreases |rows|
  {
    if rows != [] {
      var init := rows[..|rows| - 1];
      SegmentSetIs(init);
      assert forall i :: 0 <= i < |init| ==> init[i] == rows[i];
      var all := set i | 0 <= i < |rows| :: rows[i].segment;
      var before := set i | 0 <= i < |init| :: init[i].segment;
      assert all == before + {rows[|rows| - 1].segment} by {
        forall x | x in all ensures x in before + {rows[|rows| - 1].segment} {
          var i :| 0 <= i < |rows| && rows[i].segment == x;
          if i < |init| {
            assert init[i].segment == x;
          }
        }
      }
    }
  }

  lemma {:induction false} SegmentSetSize(rows: seq<Row>)
    ensures |SegmentSet(rows)| <= |rows|
    ensures rows != [] ==> |SegmentSet(rows)| >= 1
    decreases |rows|
  {
    if rows != [] {
      SegmentSetSize(rows[..|rows| - 1]);
    }
  }

  /**
   * The list `process_files` works on, or the error it raises on the way:
   * a dict is wrapped in a one-element list, a list is kept, and the result
   * is never empty; "No policy data found" comes exactly from an empty list
   * or a falsy scalar.
   */
  function ElementsOf(doc: Doc): (r: Result<seq<Element>, BatchError>)
    ensures r.Ok? ==> r.value != []
    ensures doc.Object? ==> r == Ok([Obj(doc.record)])
    ensures doc.Array? && r.Ok? ==> r.value == doc.elements
    ensures r == Err(NoPolicyData) <==> (doc.Array? && doc.elements == []) || (doc.Scalar? && !Truthy(doc.v))
  {
    match doc
    case Object(r) => Ok([Obj(r)])
    case Array(es) => if es == [] then Err(NoPolicyData) else Ok(es)
    case Scalar(v) => if Truthy(v) then Err(NotRecords) else Err(NoPolicyData)
  }

  /**
   * The metrics of a report on `records` and their `rows`: one record per
   * row counted, a well-formed summary holding each formula's row count,
   * the distinct segments, the company name, and the mean payin, which is
   * not negative when no payin is.
   */
  function MetricsOf(records: seq<Record>, rows: seq<Row>, companyName: string): (m: Metrics)
    requires |records| > 0
    requires forall i :: 0 <= i < |records| ==> records[i].payinValue.Some?
    ensures m.totalRecords == |rows| && m.companyName == companyName
    ensures WellFormed(m.formulaSummary) && Total(m.formulaSummary) == |rows|
    ensures forall f :: Lookup(m.formulaSummary, f) == CountOf(rows, f)
    ensures m.uniqueSegments == |set i | 0 <= i < |rows| :: rows[i].segment|
    ensures m.avgPayin == Sum(PayinColumn(records)) / (|records| as real)
    ensures (forall i :: 0 <= i < |records| ==> records[i].payinValue.value >= 0.0) ==> m.avgPayin >= 0.0
  {
    SummaryWellFormed(rows);
    forall f {
      SummaryCounts(rows, f);
    }
    SummaryTotal(rows);
    SumNonNegative(PayinColumn(records));
    Metrics(|rows|, Sum(PayinColumn(records)) / (|records| as real), UniqueSegments(rows), companyName, SummaryOf(rows))
  }

  /** A sum of non-negative numbers is not negative. */
  lemma {:induction false} SumNonNegative(xs: seq<real>)
    ensures (forall i :: 0 <= i < |xs| ==> xs[i] >= 0.0) ==> Sum(xs) >= 0.0
    decreases |xs|
  {
    if xs != [] {
      SumNonNegative(xs[..|xs| - 1]);
      assert forall i :: 0 <= i < |xs| - 1 ==> xs[..|xs| - 1][i] == xs[i];
    }
  }

  /**
   * `process_files` from the extracted text and what `json.loads` made of
   * it: the specification the method below is proved against. A report
   * keeps the text, the company name and the rule table, and has as many
   * rows as records, at least one, all counted in `total_records`.
   */
  function Outcome(extractedText: string, parsed: Option<Doc>, companyName: string): (o: Result<Report, BatchError>)
    ensures o.Ok? ==> o.value.extractedText == extractedText && o.value.metrics.companyName == companyName
    ensures o.Ok? ==> o.value.formulaData == FORMULA_DATA
    ensures o.Ok? ==> |o.value.calculatedData| == |o.value.parsedData| == o.value.metrics.totalRecords > 0
  {
    if extractedText == "" || extractedText == "[]" then Err(NoTextExtracted)
    else if parsed.None? then Err(InvalidJson)
    else match ElementsOf(parsed.value)
      case Err(e) => Err(e)
      case Ok(es) =>
        if !AllObjects(es) then Err(NotRecords)
        else
          var records := Map(Annotate, Unwrap(es));
          var rows := Map(RowFor, records);
          if rows == [] then Err(NoDataAfterFormula)
          else Ok(Report(extractedText, records, rows, FORMULA_DATA, MetricsOf(records, rows, companyName)))
  }

  /**
   * `process_files` up to the rendering of the output: check the extracted
   * text, normalise the parsed JSON to a list, annotate it in place, apply
   * the formulas, and gather the metrics.
   */
  method ProcessFiles(extractedText: string, parsed: Option<Doc>, companyName: string) returns (result: Result<Report, BatchError>)
    ensures result == Outcome(extractedText, parsed, companyName)
  {
    if extractedText == "" || extractedText == "[]" {
      return Err(NoTextExtracted);
    }
    if parsed.None? {
      return Err(InvalidJson);
    }
    var policyData: seq<Element>;
    match parsed.value {
      case Object(r) =>
        policyData := [Obj(r)];
      case Array(es) =>
        policyData := es;
      case Scalar(v) =>
        return if Truthy(v) then Err(NotRecords) else Err(NoPolicyData);
    }
    if policyData == [] {
      return Err(NoPolicyData);
    }
    var a := new Element[|policyData|](i requires 0 <= i < |policyData| => policyData[i]);
    assert a[..] == policyData;
    var ok := AnnotatePayins(a);
    if !ok {
      return Err(NotRecords);
    }
    var records := Unwrap(a[..]);
    MapIs(Annotate, Unwrap(policyData), records);
    result := ReportOn(extractedText, records, companyName);
  }

  /** The rest of `process_files` once the records are annotated: apply the formulas and gather the metrics. */
  method ReportOn(extractedText: string, records: seq<Record>, companyName: string) returns (result: Result<Report, BatchError>)
    requires records != [] && forall i :: 0 <= i < |records| ==> records[i].payinValue.Some?
    ensures var rows := Map(RowFor, records);
      result == if rows == [] then Err(NoDataAfterFormula)
                else Ok(Report(extractedText, records, rows, FORMULA_DATA, MetricsOf(records, rows, companyName)))
  {
    var calculatedData := ApplyFormula(records);
    MapIs(RowFor, records, calculatedData);
    if calculatedData == [] {
      return Err(NoDataAfterFormula);
    }
    var formulaSummary := FormulaSummary(calculatedData);
    var avgPayin := Sum(PayinColumn(records)) / (|records| as real);
    var metrics := Metrics(|calculatedData|, avgPayin, UniqueSegments(calculatedData), companyName, formulaSummary);
    result := Ok(Report(extractedText, records, calculatedData, FORMULA_DATA, metrics));
  }

  // ---------------------------------------------------------------------
  // What process_files guarantees

  /**
   * A record annotated by `process_files` never raises in `apply_formula`:
   * its payin value and category are exactly what `classify_payin` gave.
   */
  lemma AnnotatedRecordNeverFails(r: Record)
    ensures var c := ClassifyPayin(Get(r, "payin", Int(0)));
      && PayinOf(Annotate(r)) == Ok(c.0)
      && CategoryOf(Annotate(r)) == Ok(c.1.Label())
    ensures RowFor(Annotate(r)).payout.Percent? && RowFor(Annotate(r)).formulaUsed != ERROR
  {
    AnnotatedFields(r);
    ErrorRowIff(Annotate(r));
  }

  /** What `apply_formula` reads from an annotated record: the classified payin, its bracket's label, the segment. */
  lemma AnnotatedFields(r: Record)
    ensures var c := ClassifyPayin(Get(r, "payin", Int(0)));
      && PayinOf(Annotate(r)) == Ok(c.0)
      && CategoryOf(Annotate(r)) == Ok(c.1.Label())
      && SegmentOf(Annotate(r)) == SegmentOf(r)
  {
    var c := ClassifyPayin(Get(r, "payin", Int(0)));
    var a := Annotate(r);
    assert PayinOf(a) == Ok(c.0);
    LabelIsPlainRemark(c.1);
    assert CategoryOf(a) == Ok(Strip(c.1.Label()));
    assert Get(a, "segment", Str("")) == Get(r, "segment", Str(""));
  }

  /** A formula no row used is not counted. */
  lemma {:induction false} CountAbsent(rows: seq<Row>, key: string)
    requires forall i :: 0 <= i < |rows| ==> rows[i].formulaUsed != key
    ensures CountOf(rows, key) == 0
    decreases |rows|
  {
    if rows != [] {
      CountAbsent(rows[..|rows| - 1], key);
    }
  }

  /**
   * `process_files` succeeds exactly when the extracted text is neither
   * empty nor "[]", it parses, and it is one dict or a non-empty list of
   * dicts; "No data after formula application" is never raised.
   */
  lemma OutcomeOkIff(text: string, parsed: Option<Doc>, companyName: string)
    ensures Outcome(text, parsed, companyName).Ok? <==>
      && text != "" && text != "[]" && parsed.Some?
      && ElementsOf(parsed.value).Ok? && AllObjects(ElementsOf(parsed.value).value)
    ensures Outcome(text, parsed, companyName) != Err(NoDataAfterFormula)
  {
    if text != "" && text != "[]" && parsed.Some? && ElementsOf(parsed.value).Ok? {
      var es := ElementsOf(parsed.value).value;
      assert |es| > 0;
      if AllObjects(es) {
        assert |Map(RowFor, Map(Annotate, Unwrap(es)))| > 0;
      }
    }
  }

  /**
   * A successful report: one annotated record and one row per element, in
   * order, and no row is an error row.
   */
  lemma ReportRows(text: string, parsed: Option<Doc>, companyName: string)
    requires Outcome(text, parsed, companyName).Ok?
    ensures parsed.Some? && ElementsOf(parsed.value).Ok?
    ensures var report := Outcome(text, parsed, companyName).value;
      var es := ElementsOf(parsed.value).value;
      && report.extractedText == text
      && report.metrics.companyName == companyName
      && |report.parsedData| == |es| == |report.calculatedData| == report.metrics.totalRecords
      && (forall i :: 0 <= i < |es| ==>
            es[i].Obj? && report.parsedData[i] == Annotate(es[i].record)
            && report.calculatedData[i] == RowFor(report.parsedData[i])
            && report.calculatedData[i].payout.Percent?
            && report.calculatedData[i].formulaUsed != ERROR)
  {
    OutcomeValue(text, parsed, companyName);
    var es := ElementsOf(parsed.value).value;
    var report := Outcome(text, parsed, companyName).value;
    var records := Unwrap(es);
    forall i | 0 <= i < |es|
      ensures es[i].Obj? && report.parsedData[i] == Annotate(es[i].record)
      ensures report.calculatedData[i] == RowFor(report.parsedData[i])
      ensures report.calculatedData[i].payout.Percent? && report.calculatedData[i].formulaUsed != ERROR
    {
      assert records[i] == es[i].record;
      AnnotatedRecordNeverFails(es[i].record);
    }
  }

  /** How a successful report is built from the parsed elements. */
  lemma OutcomeValue(text: string, parsed: Option<Doc>, companyName: string)
    requires Outcome(text, parsed, companyName).Ok?
    ensures parsed.Some? && ElementsOf(parsed.value).Ok? && AllObjects(ElementsOf(parsed.value).value)
    ensures var report := Outcome(text, parsed, companyName).value;
      && report.parsedData == Map(Annotate, Unwrap(ElementsOf(parsed.value).value))
      && report.calculatedData == Map(RowFor, report.parsedData)
      && report.metrics == MetricsOf(report.parsedData, report.calculatedData, companyName)
  {
  }

  /**
   * The summary of a successful report lists each formula once with the
   * number of rows that used it, the counts add up to `total_records`, and
   * "Error" is not among them.
   */
  lemma ReportSummary(text: string, parsed: Option<Doc>, companyName: string)
    requires Outcome(text, parsed, companyName).Ok?
    ensures var m := Outcome(text, parsed, companyName).value.metrics;
      && WellFormed(m.formulaSummary)
      && Total(m.formulaSummary) == m.totalRecords
      && ERROR !in Keys(m.formulaSummary)
    ensures var report := Outcome(text, parsed, companyName).value;
      forall f :: Lookup(report.metrics.formulaSummary, f) == CountOf(report.calculatedData, f)
  {
    ReportRows(text, parsed, companyName);
    OutcomeValue(text, parsed, companyName);
    var report := Outcome(text, parsed, companyName).value;
    var rows := report.calculatedData;
    assert forall i :: 0 <= i < |rows| ==> rows[i].formulaUsed != ERROR;
    assert report.metrics.formulaSummary == SummaryOf(rows);
    SummaryWellFormed(rows);
    SummaryTotal(rows);
    CountAbsent(rows, ERROR);
    SummaryCounts(rows, ERROR);
    KeysCounted(SummaryOf(rows), ERROR);
  }

  /** The `avg_payin` of a successful report is the mean of its records' classified payins. */
  lemma ReportAverage(text: string, parsed: Option<Doc>, companyName: string)
    requires Outcome(text, parsed, companyName).Ok?
    ensures var records := Outcome(text, parsed, companyName).value.parsedData;
      |records| > 0 && forall i :: 0 <= i < |records| ==> records[i].payinValue.Some?
    ensures var report := Outcome(text, parsed, companyName).value;
      report.metrics.avgPayin == Sum(PayinColumn(report.parsedData)) / (|report.parsedData| as real)
  {
    OutcomeValue(text, parsed, companyName);
    var report := Outcome(text, parsed, companyName).value;
    var records := report.parsedData;
    forall i | 0 <= i < |records|
      ensures records[i].payinValue.Some?
    {
      assert records[i] == Annotate(Unwrap(ElementsOf(parsed.value).value)[i]);
    }
    assert report.metrics == MetricsOf(records, report.calculatedData, companyName);
  }
}

/**
 * Whole rows for records whose segments the rule table treats specially:
 * from the record as extracted, through the payin annotation and the rule
 * scan, to the row `apply_formula` writes.
 */
module Walkthrough {
  import opened Wrappers
  import opened Text
  import opened Values
  import opened Payin
  import opened LineOfBusiness
  import opened Rules
  import opened Scenarios
  import opened Batch
  import opened Processing

  /** The number `classify_payin` reads from a record's `payin` field. */
  function PayinField(r: Record): Value {
    Get(r, "payin", Int(0))
  }

  /** The PO text of a bracket's deduction row. */
  function DeductionPo(b: Bracket): string {
    match b
    case Below20 => "-2%"
    case From21To30 => "-3%"
    case From31To50 => "-4%"
    case Above50 => "-5%"
  }

  /** A bracket's deduction PO deducts that bracket's points. */
  lemma DeductionPoDeducts(b: Bracket)
    ensures FormulaOf(DeductionPo(b)) == Deduct(Points(b))
  {
    DeductFormulas();
  }

  /**
   * The row of a record with payin `v` in bracket `b` that met its
   * bracket's deduction row: it names that row's PO and pays `v` less the
   * bracket's points, clamped at zero.
   */
  predicate DeductedRow(row: Row, v: real, b: Bracket) {
    && row.formulaUsed == DeductionPo(b)
    && row.payin == v
    && row.payout == Percent(if v - Points(b) > 0.0 then v - Points(b) else 0.0)
  }

  /**
   * A record that annotation puts in bracket `b`, and whose first firing
   * rule has that bracket's deduction PO, gets the deducted row.
   */
  lemma BracketDeductionRow(r: Record, k: nat, b: Bracket)
    requires b == ClassifyPayin(PayinField(r)).1
    requires FirstFiring(FORMULA_DATA, DetermineLob(SegmentOf(r)), CleanSegment(SegmentOf(r)), b.Label(), 0) == Some(k)
    requires FORMULA_DATA[k].po == DeductionPo(b)
    ensures DeductedRow(RowFor(Annotate(r)), ClassifyPayin(PayinField(r)).0, b)
  {
    var v := ClassifyPayin(PayinField(r)).0;
    var a := Annotate(r);
    AnnotatedFields(r);
    MatchedRow(a, k);
    DeductionPoDeducts(b);
    DeductedPayout(DeductionPo(b), v, Points(b));
  }

  lemma TwTpRowPo(b: Bracket)
    ensures FORMULA_DATA[2 + Offset(b)].po == DeductionPo(b)
  {
  }

  /**
   * A record with a TW third-party segment (such as "TW TP"), whatever its
   * payin: annotation puts the payin `v` in bracket `b`, and the row applies
   * b's deduction (2, 3, 4 or 5 points), clamped at zero, naming b's PO text.
   */
  lemma TwThirdPartyRow(r: Record)
    requires TwThirdPartySegment(SegmentOf(r))
    ensures var (v, b) := ClassifyPayin(PayinField(r)); DeductedRow(RowFor(Annotate(r)), v, b)
  {
    var b := ClassifyPayin(PayinField(r)).1;
    TwThirdPartyMatches(SegmentOf(r), b);
    TwTpDeductionRow(r, b);
  }

  /** The row of a record in bracket `b` whose first firing rule is the "TW TP" row of `b`. */
  lemma TwTpDeductionRow(r: Record, b: Bracket)
    requires b == ClassifyPayin(PayinField(r)).1
    requires FirstFiring(FORMULA_DATA, DetermineLob(SegmentOf(r)), CleanSegment(SegmentOf(r)), b.Label(), 0) == Some(2 + Offset(b))
    ensures DeductedRow(RowFor(Annotate(r)), ClassifyPayin(PayinField(r)).0, b)
  {
    TwTpRowPo(b);
    BracketDeductionRow(r, 2 + Offset(b), b);
  }

  /** A PO that deducts `p` points pays the payin less `p`, clamped at zero. */
  lemma DeductedPayout(po: string, v: real, p: real)
    requires FormulaOf(po) == Deduct(p)
    ensures MatchedPayout(po, v) == if v - p > 0.0 then v - p else 0.0
  {
  }

  /** A "TW TP" record with payin 55 gets 50.00% by the "-5%" rule of the Above 50% bracket. */
  lemma TwThirdPartyAboveFifty(r: Record)
    requires TwThirdPartySegment(SegmentOf(r)) && PayinField(r) == Int(55)
    ensures RowFor(Annotate(r)).formulaUsed == "-5%"
    ensures RowFor(Annotate(r)).payout == Percent(50.0)
  {
    TwThirdPartyRow(r);
    assert ClassifyPayin(Int(55)) == (55.0, Above50);
  }

  /**
   * An annotated record for whose segment and bracket no rule fires gets the
   * "No matching rule" row, which passes its payin through.
   */
  lemma UnmatchedRow(r: Record)
    requires FirstFiring(FORMULA_DATA, DetermineLob(SegmentOf(r)), CleanSegment(SegmentOf(r)),
                         ClassifyPayin(PayinField(r)).1.Label(), 0) == None
    ensures var row := RowFor(Annotate(r));
      && row.formulaUsed == NO_MATCH
      && row.payout == Percent(row.payin)
      && row.payin == ClassifyPayin(PayinField(r)).0
  {
    var c := ClassifyPayin(PayinField(r));
    AnnotatedFields(r);
    UnmatchedRowOf(Annotate(r), c.0, c.1.Label());
  }

  /**
   * Segments no rule is written for, although their line of business has
   * rules: the row passes the payin through as "No matching rule".
   */
  lemma UnmatchedSegmentRow(r: Record)
    requires Upper(SegmentOf(r)) == "CV UPTO 2.5 TN" || Upper(SegmentOf(r)) == "BUS"
    ensures var row := RowFor(Annotate(r));
      && row.formulaUsed == NO_MATCH
      && row.payout == Percent(row.payin)
      && row.payin == ClassifyPayin(PayinField(r)).0
  {
    var segment := SegmentOf(r);
    var category := ClassifyPayin(PayinField(r)).1.Label();
    if Upper(segment) == "BUS" {
      PlainBusNoRule(segment, category);
    } else {
      CvUptoNoRule(segment, category);
    }
    UnmatchedRow(r);
  }

  /**
   * "PVT CAR TP" after annotation: every payin falls in a bracket, and no
   * PVT CAR rule admits a bracket label, so the row is "No matching rule".
   */
  lemma PrivateCarThirdPartyRow(r: Record)
    requires Upper(SegmentOf(r)) == "PVT CAR TP"
    ensures var row := RowFor(Annotate(r));
      row.formulaUsed == NO_MATCH && row.payout == Percent(row.payin)
  {
    PvtCarTpNoRule(SegmentOf(r), ClassifyPayin(PayinField(r)).1);
    UnmatchedRow(r);
  }

  /** The "Zuno - 21" row pays 90% of the payin, clamped at zero. */
  lemma ZunoPo()
    ensures FORMULA_DATA[7].po == "90% of Payin"
    ensures forall v :: MatchedPayout(FORMULA_DATA[7].po, v) == if v > 0.0 then v * 0.9 else 0.0
  {
    ScaleFormulas();
  }

  /**
   * "PVT CAR TP" given to `apply_formula` without annotation, with a
   * `Payin_Value` and no `Payin_Category`: the empty category is inside
   * every remark, so the "Zuno - 21" rule fires and pays 90% of the payin.
   */
  lemma PrivateCarThirdPartyUncategorised(r: Record, v: real)
    requires Upper(SegmentOf(r)) == "PVT CAR TP"
    requires r.payinValue == Some(v) && r.payinCategory == None && "Payin_Category" !in r.fields
    ensures RowFor(r).formulaUsed == "90% of Payin"
    ensures RowFor(r).payout == Percent(if v > 0.0 then v * 0.9 else 0.0)
  {
    var segment := SegmentOf(r);
    assert CategoryOf(r) == Ok("");
    PvtCarTpUncategorisedMatches(segment);
    MatchedRow(r, 7);
    ZunoPo();
  }
}

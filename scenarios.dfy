/**
 * What the first-match scan does for particular segments: the bracketed
 * two-wheeler third-party rows, and segments for which the table, as
 * written, has no rule or only the "Zuno - 21" rule.
 */
module Scenarios {
  import opened Wrappers
  import opened Text
  import opened LineOfBusiness
  import opened Payin
  import opened Rules

  /** The position of a bracket's row within a bracketed segment's four rows. */
  function Offset(b: Bracket): nat {
    match b
    case Below20 => 0
    case From21To30 => 1
    case From31To50 => 2
    case Above50 => 3
  }

  /** The bracket whose row is at a given position within a bracketed segment's rows. */
  function BracketAt(i: nat): (b: Bracket)
    requires i < 4
    ensures Offset(b) == i
  {
    [Below20, From21To30, From31To50, Above50][i]
  }

  // ---------------------------------------------------------------------
  // Four bracket rows in a row

  /**
   * The rows of `table` from `start` on are four rows of line of business
   * `lob` with one segment, whose remarks are the four bracket labels in
   * bracket order.
   */
  predicate BracketRows(table: seq<Rule>, lob: Lob, start: nat) {
    && start + 4 <= |table|
    && table[start].remarks == Below20.Label()
    && table[start + 1].remarks == From21To30.Label()
    && table[start + 2].remarks == From31To50.Label()
    && table[start + 3].remarks == Above50.Label()
    && table[start].lob == table[start + 1].lob == table[start + 2].lob == table[start + 3].lob == lob.Name()
    && table[start].segment == table[start + 1].segment == table[start + 2].segment == table[start + 3].segment
  }

  /**
   * The rows of `table` from `start` on fire for `category` (the label of
   * bracket `b`) exactly when they are b's row.
   */
  predicate BracketBlock(table: seq<Rule>, lob: Lob, cs: string, category: string, b: Bracket, start: nat) {
    && start + 4 <= |table|
    && (Fires(table[start], lob, cs, category) <==> b == Below20)
    && (Fires(table[start + 1], lob, cs, category) <==> b == From21To30)
    && (Fires(table[start + 2], lob, cs, category) <==> b == From31To50)
    && (Fires(table[start + 3], lob, cs, category) <==> b == Above50)
  }

  /** Bracket rows whose segment is inside the record's fire for the record's own bracket only. */
  lemma BracketRowsFire(table: seq<Rule>, lob: Lob, cs: string, b: Bracket, start: nat)
    requires BracketRows(table, lob, start) && Contains(cs, CleanRuleSegment(table[start].segment))
    ensures BracketBlock(table, lob, cs, b.Label(), b, start)
  {
    BracketRowFires(table[start], Below20, b, lob, cs);
    BracketRowFires(table[start + 1], From21To30, b, lob, cs);
    BracketRowFires(table[start + 2], From31To50, b, lob, cs);
    BracketRowFires(table[start + 3], Above50, b, lob, cs);
  }

  /** A scan entering a bracket block stops at the row of the record's own bracket. */
  lemma BlockScan(table: seq<Rule>, lob: Lob, cs: string, l: string, b: Bracket, start: nat)
    requires BracketBlock(table, lob, cs, l, b, start)
    ensures FirstFiring(table, lob, cs, l, start) == Some(start + Offset(b))
  {
    if b == Below20 {
      FirstFiringHit(table, lob, cs, l, start);
    } else {
      FirstFiringStep(table, lob, cs, l, start);
      BlockScanSecond(table, lob, cs, l, b, start);
    }
  }

  /** Past the first row of the block, the scan stops at the row of a bracket above "Below 20%". */
  lemma BlockScanSecond(table: seq<Rule>, lob: Lob, cs: string, l: string, b: Bracket, start: nat)
    requires BracketBlock(table, lob, cs, l, b, start) && b != Below20
    ensures FirstFiring(table, lob, cs, l, start + 1) == Some(start + Offset(b))
  {
    if b == From21To30 {
      FirstFiringHit(table, lob, cs, l, start + 1);
    } else {
      FirstFiringStep(table, lob, cs, l, start + 1);
      BlockScanThird(table, lob, cs, l, b, start);
    }
  }

  /** Past the second row of the block, the scan stops at the row of a bracket above 30%. */
  lemma BlockScanThird(table: seq<Rule>, lob: Lob, cs: string, l: string, b: Bracket, start: nat)
    requires BracketBlock(table, lob, cs, l, b, start) && b != Below20 && b != From21To30
    ensures FirstFiring(table, lob, cs, l, start + 2) == Some(start + Offset(b))
  {
    if b == From31To50 {
      FirstFiringHit(table, lob, cs, l, start + 2);
    } else {
      FirstFiringStep(table, lob, cs, l, start + 2);
      FirstFiringHit(table, lob, cs, l, start + 3);
    }
  }

  /**
   * A scan entering bracket rows whose segment is inside the record's stops
   * at the row of the record's own bracket.
   */
  lemma BracketRowsScan(table: seq<Rule>, lob: Lob, cs: string, b: Bracket, start: nat)
    requires BracketRows(table, lob, start) && Contains(cs, CleanRuleSegment(table[start].segment))
    ensures FirstFiring(table, lob, cs, b.Label(), start) == Some(start + Offset(b))
  {
    BracketRowsFire(table, lob, cs, b, start);
    BlockScan(table, lob, cs, b.Label(), b, start);
  }

  // ---------------------------------------------------------------------
  // "TW TP"

  /**
   * A cleaned segment the TW rows see as third party: neither "1+5" nor
   * "TW SAOD + COMP" is inside it, and "TW TP" is.
   */
  predicate TwTpCleaned(cs: string) {
    && !Contains(cs, CleanRuleSegment(FORMULA_DATA[0].segment))
    && !Contains(cs, CleanRuleSegment(FORMULA_DATA[1].segment))
    && Contains(cs, CleanRuleSegment(FORMULA_DATA[2].segment))
  }

  /** A TW segment the TW rows see as third party. */
  predicate TwThirdPartySegment(segment: string) {
    DetermineLob(segment) == TW && TwTpCleaned(CleanSegment(segment))
  }

  lemma TwTpIsTwoWheeler(segment: string)
    requires Upper(segment) == "TW TP"
    ensures DetermineLob(segment) == TW
  {
    ContainsAt(Upper(segment), "TW", 0);
    AnyInMember(Keywords(TW), 0, Upper(segment));
  }

  /** "TW TP" is inside "TW TP"; "1+5" and "TW SAOD + COMP" are not. */
  lemma TwTpCleanSegment(segment: string)
    requires Upper(segment) == "TW TP"
    ensures TwTpCleaned(CleanSegment(segment))
  {
    TwTpLacksOnePlusFive(segment);
    TwTpLacksSaod(segment);
    TwTpHoldsTwTp(segment);
  }

  lemma TwTpLacksOnePlusFive(segment: string)
    requires Upper(segment) == "TW TP"
    ensures !Contains(CleanSegment(segment), CleanRuleSegment(FORMULA_DATA[0].segment))
  {
    RuleSegmentNotInside(segment, FORMULA_DATA[0].segment, 0);
  }

  lemma TwTpLacksSaod(segment: string)
    requires Upper(segment) == "TW TP"
    ensures !Contains(CleanSegment(segment), CleanRuleSegment(FORMULA_DATA[1].segment))
  {
    RuleSegmentNotInside(segment, FORMULA_DATA[1].segment, 3);
  }

  lemma TwTpHoldsTwTp(segment: string)
    requires Upper(segment) == "TW TP"
    ensures Contains(CleanSegment(segment), CleanRuleSegment(FORMULA_DATA[2].segment))
  {
    RuleSegmentSame(segment, FORMULA_DATA[2].segment);
  }

  /** The segment "TW TP", in any letter case, is a TW third-party segment. */
  lemma TwTpIsThirdPartySegment(segment: string)
    requires Upper(segment) == "TW TP"
    ensures TwThirdPartySegment(segment)
  {
    TwTpIsTwoWheeler(segment);
    TwTpCleanSegment(segment);
  }

  lemma TwTpRow(c: Bracket)
    ensures FORMULA_DATA[2 + Offset(c)].remarks == c.Label() && FORMULA_DATA[2 + Offset(c)].lob == "TW"
  {
  }

  /** Rows 2 to 5 are the four "TW TP" bracket rows. */
  lemma TwTpRows()
    ensures BracketRows(FORMULA_DATA, TW, 2)
  {
  }

  /** The "1+5" and "TW SAOD + COMP" rows are passed over. */
  lemma TwTpSkipsOtherTwoWheelerRows(cs: string, category: string)
    requires TwTpCleaned(cs)
    ensures FirstFiring(FORMULA_DATA, TW, cs, category, 0) == FirstFiring(FORMULA_DATA, TW, cs, category, 2)
  {
    FirstFiringStep(FORMULA_DATA, TW, cs, category, 0);
    FirstFiringStep(FORMULA_DATA, TW, cs, category, 1);
  }

  /** The first TW row firing for a third-party segment is the "TW TP" row of the record's bracket. */
  lemma TwThirdPartyMatches(segment: string, b: Bracket)
    requires TwThirdPartySegment(segment)
    ensures FirstFiring(FORMULA_DATA, DetermineLob(segment), CleanSegment(segment), b.Label(), 0) == Some(2 + Offset(b))
  {
    var cs := CleanSegment(segment);
    TwTpSkipsOtherTwoWheelerRows(cs, b.Label());
    TwTpRows();
    BracketRowsScan(FORMULA_DATA, TW, cs, b, 2);
  }

  /**
   * A "TW TP" record with payin category `b` matches the "TW TP" row of its
   * own bracket, and that row deducts 2, 3, 4 or 5 points by bracket: a
   * payin above 50% loses 5 points, not 3.
   */
  lemma TwThirdPartyByBracket(segment: string, b: Bracket)
    requires Upper(segment) == "TW TP"
    ensures DetermineLob(segment) == TW
    ensures FirstFiring(FORMULA_DATA, TW, CleanSegment(segment), b.Label(), 0) == Some(2 + Offset(b))
    ensures FormulaOf(FORMULA_DATA[2 + Offset(b)].po) == Deduct(Points(b))
  {
    TwTpIsThirdPartySegment(segment);
    TwThirdPartyMatches(segment, b);
    TwTpRow(b);
    BracketRowDeducts(2 + Offset(b), b);
  }

  // ---------------------------------------------------------------------
  // "CV upto 2.5 Tn"

  lemma CvUptoNotTwoWheeler()
    ensures !AnyIn(Keywords(TW), "CV UPTO 2.5 TN")
  {
    AnyInNone(Keywords(TW), "CV UPTO 2.5 TN", [1, 1, 0, 0, 0]);
  }

  lemma CvUptoNotCar()
    ensures !AnyIn(Keywords(PvtCar), "CV UPTO 2.5 TN")
  {
    AnyInNone(Keywords(PvtCar), "CV UPTO 2.5 TN", [5, 1, 2]);
  }

  lemma CvUptoIsCommercial(segment: string)
    requires Upper(segment) == "CV UPTO 2.5 TN"
    ensures DetermineLob(segment) == CV
  {
    CvUptoNotTwoWheeler();
    CvUptoNotCar();
    ContainsAt(Upper(segment), "CV", 0);
    AnyInMember(Keywords(CV), 0, Upper(segment));
  }

  /** Both CV rule segments mention "GVW": none fires for a segment without a 'G'. */
  lemma CvRowsNeedG(segment: string, category: string)
    requires 'G' !in Upper(segment)
    ensures forall k :: BlockStart(CV) <= k < BlockEnd(CV) ==> !Fires(FORMULA_DATA[k], CV, CleanSegment(segment), category)
  {
    forall k | BlockStart(CV) <= k < BlockEnd(CV)
      ensures !Contains(CleanSegment(segment), CleanRuleSegment(FORMULA_DATA[k].segment))
    {
      CvRowNeedsG(segment, k);
    }
  }

  /** The segment of CV rule `k` has a 'G' that a segment without one cannot supply. */
  lemma CvRowNeedsG(segment: string, k: nat)
    requires BlockStart(CV) <= k < BlockEnd(CV) && 'G' !in Upper(segment)
    ensures !Contains(CleanSegment(segment), CleanRuleSegment(FORMULA_DATA[k].segment))
  {
    if k == 8 {
      UptoRowNeedsG(segment);
    } else {
      AllGvwRowNeedsG(segment, k);
    }
  }

  /** "Upto 2.5 GVW" has its 'G' at index 9. */
  lemma UptoRowNeedsG(segment: string)
    requires 'G' !in Upper(segment)
    ensures !Contains(CleanSegment(segment), CleanRuleSegment(FORMULA_DATA[8].segment))
  {
    var raw := FORMULA_DATA[8].segment;
    assert raw[9] == 'G';
    RuleSegmentNotInside(segment, raw, 9);
  }

  /** "All GVW & PCV 3W, GCV 3W" has its 'G' at index 4. */
  lemma AllGvwRowNeedsG(segment: string, k: nat)
    requires 9 <= k < 13 && 'G' !in Upper(segment)
    ensures !Contains(CleanSegment(segment), CleanRuleSegment(FORMULA_DATA[k].segment))
  {
    var raw := FORMULA_DATA[k].segment;
    assert raw[4] == 'G';
    RuleSegmentNotInside(segment, raw, 4);
  }

  /**
   * A "CV upto 2.5 Tn" record is CV, but neither CV rule segment ("UPTO 2.5
   * GVW", "ALL GVW & PCV 3W, GCV 3W") is inside its segment: no rule
   * matches, whatever its payin category.
   */
  lemma CvUptoNoRule(segment: string, category: string)
    requires Upper(segment) == "CV UPTO 2.5 TN"
    ensures DetermineLob(segment) == CV
    ensures FirstFiring(FORMULA_DATA, CV, CleanSegment(segment), category, 0) == None
  {
    CvUptoIsCommercial(segment);
    assert 'G' !in Upper(segment);
    CommercialWithoutGNoRule(segment, category);
  }

  /** A CV segment without a 'G' meets no rule: CV rules all need "GVW". */
  lemma CommercialWithoutGNoRule(segment: string, category: string)
    requires DetermineLob(segment) == CV && 'G' !in Upper(segment)
    ensures FirstFiring(FORMULA_DATA, CV, CleanSegment(segment), category, 0) == None
  {
    var cs := CleanSegment(segment);
    CvRowsNeedG(segment, category);
    ScanSkipsEarlierBlocks(CV, cs, category);
    FirstFiringSkip(FORMULA_DATA, CV, cs, category, BlockStart(CV), BlockEnd(CV));
    ScanStopsAtBlockEnd(CV, cs, category);
  }

  // ---------------------------------------------------------------------
  // "BUS"

  lemma PlainBusNotTwoWheeler()
    ensures !AnyIn(Keywords(TW), "BUS")
  {
    AnyInNone(Keywords(TW), "BUS", [0, 0, 0, 1, 0]);
  }

  lemma PlainBusNotCar()
    ensures !AnyIn(Keywords(PvtCar), "BUS")
  {
    AnyInNone(Keywords(PvtCar), "BUS", [0, 0, 0]);
  }

  lemma PlainBusNotCommercial()
    ensures !AnyIn(Keywords(CV), "BUS")
  {
    AnyInNone(Keywords(CV), "BUS", [0, 0, 0, 0]);
  }

  lemma PlainBusIsBus(segment: string)
    requires Upper(segment) == "BUS"
    ensures DetermineLob(segment) == Bus
  {
    PlainBusNotTwoWheeler();
    PlainBusNotCar();
    PlainBusNotCommercial();
    ContainsTrivial(Upper(segment));
  }

  /** The "STAFF BUS" rule segment is not inside "BUS": it has a 'T'. */
  lemma PlainBusSkipsStaffBus(segment: string)
    requires Upper(segment) == "BUS"
    ensures !Contains(CleanSegment(segment), CleanRuleSegment(FORMULA_DATA[14].segment))
  {
    RuleSegmentNotInside(segment, FORMULA_DATA[14].segment, 1);
  }

  /**
   * A segment that is just "Bus" is BUS, but of the two bus rules "SCHOOL
   * BUS" never fires and "STAFF BUS" is not inside "BUS": no rule matches.
   */
  lemma PlainBusNoRule(segment: string, category: string)
    requires Upper(segment) == "BUS"
    ensures DetermineLob(segment) == Bus
    ensures FirstFiring(FORMULA_DATA, Bus, CleanSegment(segment), category, 0) == None
  {
    PlainBusIsBus(segment);
    var cs := CleanSegment(segment);
    ScanSkipsEarlierBlocks(Bus, cs, category);
    SchoolBusRuleNeverFires(segment, category);
    FirstFiringStep(FORMULA_DATA, Bus, cs, category, 13);
    PlainBusSkipsStaffBus(segment);
    FirstFiringStep(FORMULA_DATA, Bus, cs, category, 14);
    ScanStopsAtBlockEnd(Bus, cs, category);
  }

  // ---------------------------------------------------------------------
  // "PVT CAR TP"

  lemma PvtCarTpNotTwoWheeler()
    ensures !AnyIn(Keywords(TW), "PVT CAR TP")
  {
    AnyInNone(Keywords(TW), "PVT CAR TP", [1, 0, 0, 0, 0]);
  }

  lemma PvtCarTpIsCar(segment: string)
    requires Upper(segment) == "PVT CAR TP"
    ensures DetermineLob(segment) == PvtCar
  {
    PvtCarTpNotTwoWheeler();
    PvtCarTpHoldsPvtCar();
    CarKeywordMeansCar(segment);
  }

  lemma PvtCarTpHoldsPvtCar()
    ensures Contains("PVT CAR TP", "PVT CAR")
  {
    ContainsAt("PVT CAR TP", "PVT CAR", 0);
  }

  /** A segment with no two-wheeler keyword and with "PVT CAR" in it is PVT CAR. */
  lemma CarKeywordMeansCar(segment: string)
    requires !AnyIn(Keywords(TW), Upper(segment)) && Contains(Upper(segment), "PVT CAR")
    ensures DetermineLob(segment) == PvtCar
  {
    AnyInMember(Keywords(PvtCar), 0, Upper(segment));
  }

  /** The "PVT CAR COMP + SAOD" rule segment is not inside "PVT CAR TP": it has an 'S'. */
  lemma PvtCarTpSkipsComprehensive(segment: string)
    requires Upper(segment) == "PVT CAR TP"
    ensures !Contains(CleanSegment(segment), CleanRuleSegment(FORMULA_DATA[6].segment))
  {
    RuleSegmentNotInside(segment, FORMULA_DATA[6].segment, 15);
  }

  /**
   * A "PVT CAR TP" record with a payin category matches no rule: its only
   * candidate row has remarks "Zuno - 21", which admit no bracket label.
   */
  lemma PvtCarTpNoRule(segment: string, b: Bracket)
    requires Upper(segment) == "PVT CAR TP"
    ensures DetermineLob(segment) == PvtCar
    ensures FirstFiring(FORMULA_DATA, PvtCar, CleanSegment(segment), b.Label(), 0) == None
  {
    PvtCarTpIsCar(segment);
    var cs := CleanSegment(segment);
    ScanSkipsEarlierBlocks(PvtCar, cs, b.Label());
    PvtCarTpSkipsComprehensive(segment);
    FirstFiringStep(FORMULA_DATA, PvtCar, cs, b.Label(), 6);
    ZunoRuleNeverFires(PvtCar, cs, b);
    FirstFiringStep(FORMULA_DATA, PvtCar, cs, b.Label(), 7);
    ScanStopsAtBlockEnd(PvtCar, cs, b.Label());
  }

  /** The "PVT CAR TP" row fires for a "PVT CAR TP" record without a category. */
  lemma ZunoRowFiresUncategorised(segment: string)
    requires Upper(segment) == "PVT CAR TP"
    ensures Fires(FORMULA_DATA[7], PvtCar, CleanSegment(segment), "")
  {
    RuleSegmentSame(segment, FORMULA_DATA[7].segment);
    RuleFiresUncategorised(FORMULA_DATA[7], PvtCar, CleanSegment(segment));
  }

  /** Without a category, a rule of the record's line of business fires when its segment is inside the record's. */
  lemma RuleFiresUncategorised(rule: Rule, lob: Lob, cs: string)
    requires rule.lob == lob.Name() && Contains(cs, CleanRuleSegment(rule.segment))
    ensures Fires(rule, lob, cs, "")
  {
    ContainsTrivial(Strip(rule.remarks));
  }

  /**
   * Without a payin category (the empty default), the same record matches
   * the "PVT CAR TP" row: the empty text is inside any remarks.
   */
  lemma PvtCarTpUncategorisedMatches(segment: string)
    requires Upper(segment) == "PVT CAR TP"
    ensures DetermineLob(segment) == PvtCar
    ensures FirstFiring(FORMULA_DATA, PvtCar, CleanSegment(segment), "", 0) == Some(7)
  {
    PvtCarTpIsCar(segment);
    var cs := CleanSegment(segment);
    ScanSkipsEarlierBlocks(PvtCar, cs, "");
    PvtCarTpSkipsComprehensive(segment);
    FirstFiringStep(FORMULA_DATA, PvtCar, cs, "", 6);
    ZunoRowFiresUncategorised(segment);
    FirstFiringHit(FORMULA_DATA, PvtCar, cs, "", 7);
  }
}

/**
 * The decision table `FORMULA_DATA`, the first-match scan `apply_formula`
 * runs over it for each record, and the payout each PO formula computes.
 */
module Rules {
  import opened Wrappers
  import opened Text
  import opened LineOfBusiness
  import opened Payin

  /**
   * One row of the table. The MISD row also carries an INSURER entry, which
   * nothing reads; it is not kept.
   */
  datatype Rule = Rule(lob: string, segment: string, po: string, remarks: string)

  /** `FORMULA_DATA`, row for row and in order. */
  const FORMULA_DATA: seq<Rule> := [
    Rule("TW", "1+5", "90% of Payin", "NIL"),
    Rule("TW", "TW SAOD + COMP", "90% of Payin", "NIL"),
    Rule("TW", "TW TP", "-2%", "Payin Below 20%"),
    Rule("TW", "TW TP", "-3%", "Payin 21% to 30%"),
    Rule("TW", "TW TP", "-4%", "Payin 31% to 50%"),
    Rule("TW", "TW TP", "-5%", "Payin Above 50%"),
    Rule("PVT CAR", "PVT CAR COMP + SAOD", "90% of Payin", "All Fuel"),
    Rule("PVT CAR", "PVT CAR TP", "90% of Payin", "Zuno - 21"),
    Rule("CV", "Upto 2.5 GVW", "-2%", "NIL"),
    Rule("CV", "All GVW & PCV 3W, GCV 3W", "-2%", "Payin Below 20%"),
    Rule("CV", "All GVW & PCV 3W, GCV 3W", "-3%", "Payin 21% to 30%"),
    Rule("CV", "All GVW & PCV 3W, GCV 3W", "-4%", "Payin 31% to 50%"),
    Rule("CV", "All GVW & PCV 3W, GCV 3W", "-5%", "Payin Above 50%"),
    Rule("BUS", "SCHOOL BUS", "Less 2% of Payin", "NIL"),
    Rule("BUS", "STAFF BUS", "88% of Payin", "NIL"),
    Rule("TAXI", "TAXI", "-2%", "Payin Below 20%"),
    Rule("TAXI", "TAXI", "-3%", "Payin 21% to 30%"),
    Rule("TAXI", "TAXI", "-4%", "Payin 31% to 50%"),
    Rule("TAXI", "TAXI", "-5%", "Payin Above 50%"),
    Rule("MISD", "Misd, Tractor", "88% of Payin", "NIL")
  ]

  // ---------------------------------------------------------------------
  // The three tests of the matching loop

  /** `re.sub(r'\s+', ' ', segment.upper())` for the record's (stripped) segment. */
  function CleanSegment(segment: string): string {
    Collapse(Upper(segment))
  }

  /** `re.sub(r'\s+', ' ', rule["SEGMENT"].strip().upper())` */
  function CleanRuleSegment(raw: string): string {
    Collapse(Upper(Strip(raw)))
  }

  /** The remarks test, on the stripped REMARKS text. */
  predicate RemarksAdmit(remarks: string, category: string) {
    remarks == "NIL" || remarks == "" || Contains(Lower(remarks), "all fuel") || Contains(remarks, category)
  }

  /** A non-space character of a rule segment survives its cleaning. */
  lemma RuleSegmentHas(raw: string, i: nat, c: char)
    requires Trimmed(raw) && i < |raw| && UpperChar(raw[i]) == c && !IsSpace(c)
    ensures c in CleanRuleSegment(raw)
  {
    var u := Upper(raw);
    assert u[i] == c;
    CollapseChars(u);
  }

  /** A character missing from the upper-cased segment is missing from the cleaned one. */
  lemma SegmentLacks(segment: string, c: char)
    requires c !in Upper(segment) && c != ' '
    ensures c !in CleanSegment(segment)
  {
    CollapseChars(Upper(segment));
  }

  /**
   * A rule segment is not inside a record segment when it has a character
   * (here the one at position `i`) the record segment lacks.
   */
  lemma RuleSegmentNotInside(segment: string, raw: string, i: nat)
    requires Trimmed(raw) && i < |raw| && !IsSpace(UpperChar(raw[i])) && UpperChar(raw[i]) !in Upper(segment)
    ensures !Contains(CleanSegment(segment), CleanRuleSegment(raw))
  {
    var c := UpperChar(raw[i]);
    RuleSegmentHas(raw, i, c);
    SegmentLacks(segment, c);
    AbsentMemberNeverContained(CleanSegment(segment), CleanRuleSegment(raw), c);
  }

  /** A rule segment that reads as the record's segment once trimmed and upper-cased is inside it. */
  lemma RuleSegmentSame(segment: string, raw: string)
    requires Trimmed(raw) && Upper(raw) == Upper(segment)
    ensures Contains(CleanSegment(segment), CleanRuleSegment(raw))
  {
    ContainsTrivial(CleanSegment(segment));
  }

  /** A rule fires for a record: same LOB, its segment inside the record's, remarks admit. */
  predicate Fires(rule: Rule, lob: Lob, segmentClean: string, category: string) {
    && rule.lob == lob.Name()
    && Contains(segmentClean, CleanRuleSegment(rule.segment))
    && RemarksAdmit(Strip(rule.remarks), category)
  }

  /**
   * The first rule at or after `from` that fires, as the specification of
   * the scan: it fires, none before it does, and `None` means none fires.
   */
  function FirstFiring(table: seq<Rule>, lob: Lob, segmentClean: string, category: string, from: nat): (r: Option<nat>)
    requires from <= |table|
    ensures r.Some? ==> from <= r.value < |table| && Fires(table[r.value], lob, segmentClean, category)
    ensures r.Some? ==> forall k :: from <= k < r.value ==> !Fires(table[k], lob, segmentClean, category)
    ensures r.None? ==> forall k :: from <= k < |table| ==> !Fires(table[k], lob, segmentClean, category)
    decreases |table| - from
  {
    if from == |table| then None
    else if Fires(table[from], lob, segmentClean, category) then Some(from)
    else FirstFiring(table, lob, segmentClean, category, from + 1)
  }

  /** The first-match result is determined by where the first firing rule is. */
  lemma FirstFiringAt(table: seq<Rule>, lob: Lob, segmentClean: string, category: string, k: nat)
    requires k < |table| && Fires(table[k], lob, segmentClean, category)
    requires forall j :: 0 <= j < k ==> !Fires(table[j], lob, segmentClean, category)
    ensures FirstFiring(table, lob, segmentClean, category, 0) == Some(k)
  {
  }

  /** A rule that does not fire extends the prefix of rules that do not. */
  lemma SkipRule(table: seq<Rule>, lob: Lob, segmentClean: string, category: string, i: nat)
    requires i < |table| && !Fires(table[i], lob, segmentClean, category)
    requires forall k :: 0 <= k < i ==> !Fires(table[k], lob, segmentClean, category)
    ensures forall k :: 0 <= k < i + 1 ==> !Fires(table[k], lob, segmentClean, category)
  {
  }

  /** When no rule fires, the scan finds none. */
  lemma FirstFiringNone(table: seq<Rule>, lob: Lob, segmentClean: string, category: string)
    requires forall j :: 0 <= j < |table| ==> !Fires(table[j], lob, segmentClean, category)
    ensures FirstFiring(table, lob, segmentClean, category, 0) == None
  {
  }

  /** A run of rules that do not fire is passed over. */
  lemma FirstFiringSkip(table: seq<Rule>, lob: Lob, segmentClean: string, category: string, from: nat, to: nat)
    requires from <= to <= |table|
    requires forall k :: from <= k < to ==> !Fires(table[k], lob, segmentClean, category)
    ensures FirstFiring(table, lob, segmentClean, category, from) == FirstFiring(table, lob, segmentClean, category, to)
  {
    var r := FirstFiring(table, lob, segmentClean, category, from);
    var q := FirstFiring(table, lob, segmentClean, category, to);
    if r.Some? {
      assert q.Some? && q.value == r.value;
    }
  }

  /** A rule that fires ends the scan. */
  lemma FirstFiringHit(table: seq<Rule>, lob: Lob, segmentClean: string, category: string, from: nat)
    requires from < |table| && Fires(table[from], lob, segmentClean, category)
    ensures FirstFiring(table, lob, segmentClean, category, from) == Some(from)
  {
  }

  /** A rule that does not fire is passed over. */
  lemma FirstFiringStep(table: seq<Rule>, lob: Lob, segmentClean: string, category: string, from: nat)
    requires from < |table| && !Fires(table[from], lob, segmentClean, category)
    ensures FirstFiring(table, lob, segmentClean, category, from) == FirstFiring(table, lob, segmentClean, category, from + 1)
  {
  }

  /** The text `apply_formula` stores as the explanation of a match. */
  function MatchedExplanation(lob: Lob, rule: Rule, category: string): string {
    "Matched: LOB=" + lob.Name() + ", Segment='" + rule.segment + "', REMARKS='"
      + Strip(rule.remarks) + "', PayinCat='" + category + "'"
  }

  /**
   * The scan over `FORMULA_DATA`: try the rules in order, skip those whose
   * LOB, segment or remarks do not match, and stop at the first that does.
   */
  method MatchRule(lob: Lob, segmentClean: string, category: string) returns (matched: Option<Rule>, explanation: string)
    ensures FirstFiring(FORMULA_DATA, lob, segmentClean, category, 0).None? ==> matched == None && explanation == ""
    ensures FirstFiring(FORMULA_DATA, lob, segmentClean, category, 0).Some? ==>
      var rule := FORMULA_DATA[FirstFiring(FORMULA_DATA, lob, segmentClean, category, 0).value];
      matched == Some(rule) && explanation == MatchedExplanation(lob, rule, category)
  {
    matched := None;
    explanation := "";
    var i := 0;
    while i < |FORMULA_DATA|
      invariant 0 <= i <= |FORMULA_DATA|
      invariant matched == None && explanation == ""
      invariant forall k :: 0 <= k < i ==> !Fires(FORMULA_DATA[k], lob, segmentClean, category)
      decreases |FORMULA_DATA| - i
    {
      var rule := FORMULA_DATA[i];
      var ruleSegmentClean := CleanRuleSegment(rule.segment);
      var remarks := Strip(rule.remarks);
      if rule.lob != lob.Name() {
        SkipRule(FORMULA_DATA, lob, segmentClean, category, i);
        i := i + 1;
        continue;
      }
      if !Contains(segmentClean, ruleSegmentClean) {
        SkipRule(FORMULA_DATA, lob, segmentClean, category, i);
        i := i + 1;
        continue;
      }
      var remarksMatch := remarks == "NIL" || remarks == "" || Contains(Lower(remarks), "all fuel") || Contains(remarks, category);
      if remarksMatch {
        matched := Some(rule);
        explanation := MatchedExplanation(lob, rule, category);
        FirstFiringAt(FORMULA_DATA, lob, segmentClean, category, i);
        return;
      }
      SkipRule(FORMULA_DATA, lob, segmentClean, category, i);
      i := i + 1;
    }
  }

  // ---------------------------------------------------------------------
  // Payout formulas

  /** What a PO text does to the payin. */
  datatype Formula = Scale(factor: real) | Deduct(points: real) | Unchanged

  /**
   * The PO dispatch: substring tests in the order the source tries them.
   * A recognised PO scales by 0.9 or 0.88 or deducts 2 to 5 points; a PO
   * holding "90% of Payin" scales by 0.9 whatever else it holds; and the
   * payin is left unchanged exactly when none of the texts it looks for occurs.
   */
  function FormulaOf(po: string): (f: Formula)
    ensures f.Scale? ==> f.factor == 0.9 || f.factor == 0.88
    ensures f.Deduct? ==> 2.0 <= f.points <= 5.0
    ensures Contains(po, "90% of Payin") ==> f == Scale(0.9)
    ensures f == Unchanged <==>
      !Contains(po, "90% of Payin") && !Contains(po, "88% of Payin") && !Contains(po, "Less 2% of Payin")
      && !Contains(po, "-2%") && !Contains(po, "-3%") && !Contains(po, "-4%") && !Contains(po, "-5%")
  {
    if Contains(po, "90% of Payin") then Scale(0.9)
    else if Contains(po, "88% of Payin") then Scale(0.88)
    else if Contains(po, "Less 2% of Payin") || Contains(po, "-2%") then Deduct(2.0)
    else if Contains(po, "-3%") then Deduct(3.0)
    else if Contains(po, "-4%") then Deduct(4.0)
    else if Contains(po, "-5%") then Deduct(5.0)
    else Unchanged
  }

  /**
   * What a formula makes of the payin: a deduction of non-negative points
   * never raises it, a scale factor between 0 and 1 keeps a non-negative
   * payin between 0 and itself, and "unchanged" returns it as it is.
   */
  function Apply(f: Formula, payin: real): (r: real)
    ensures f.Deduct? && f.points >= 0.0 ==> r <= payin
    ensures f.Scale? && 0.0 <= f.factor <= 1.0 && payin >= 0.0 ==> 0.0 <= r <= payin
    ensures f.Unchanged? ==> r == payin
  {
    match f
    case Scale(factor) => payin * factor
    case Deduct(points) => payin - points
    case Unchanged => payin
  }

  /**
   * The payout of a matched rule: the formula applied to the payin and
   * clamped at zero. It is never negative, never above a non-negative
   * payin, and equals the formula's value whenever that is not negative.
   */
  function MatchedPayout(po: string, payin: real): (p: real)
    ensures p >= 0.0
    ensures payin >= 0.0 ==> p <= payin
    ensures Apply(FormulaOf(po), payin) >= 0.0 ==> p == Apply(FormulaOf(po), payin)
    ensures Apply(FormulaOf(po), payin) < 0.0 ==> p == 0.0
  {
    var v := Apply(FormulaOf(po), payin);
    if v > 0.0 then v else 0.0
  }

  /**
   * The payout computation for a matched rule: start from the payin, scale
   * or deduct by the first PO test that applies, then clamp at zero.
   */
  method ComputePayout(po: string, payin: real) returns (payout: real)
    ensures payout == MatchedPayout(po, payin)
  {
    payout := payin;
    if Contains(po, "90% of Payin") {
      payout := payout * 0.9;
    } else if Contains(po, "88% of Payin") {
      payout := payout * 0.88;
    } else if Contains(po, "Less 2% of Payin") || Contains(po, "-2%") {
      payout := payout - 2.0;
    } else if Contains(po, "-3%") {
      payout := payout - 3.0;
    } else if Contains(po, "-4%") {
      payout := payout - 4.0;
    } else if Contains(po, "-5%") {
      payout := payout - 5.0;
    }
    if payout < 0.0 {
      payout := 0.0;
    }
  }

  // ---------------------------------------------------------------------
  // Facts about the table

  /** Each bracket label has nothing to strip and none of the catch-all remarks' shapes. */
  lemma LabelIsPlainRemark(b: Bracket)
    ensures Strip(b.Label()) == b.Label()
    ensures b.Label() != "NIL" && b.Label() != "" && !Contains(Lower(b.Label()), "all fuel")
  {
    var l := b.Label();
    assert Trimmed(l);
    assert 'f' !in Lower(l);
    AbsentCharNeverContained(Lower(l), "all fuel", 4);
  }

  /** A bracket label contains another bracket label only when they are the same. */
  lemma LabelContains(b: Bracket, c: Bracket)
    ensures Contains(b.Label(), c.Label()) <==> b == c
  {
    var lb, lc := b.Label(), c.Label();
    if b == c {
      ContainsTrivial(lb);
    } else if |lc| > |lb| {
      LongerNeverContained(lb, lc);
    } else if |lc| == |lb| {
      assert lb[6] != lc[6];
      SameLengthContains(lb, lc);
    } else {
      assert lc[6] !in lb;
      AbsentCharNeverContained(lb, lc, 6);
    }
  }

  /**
   * The remarks of a bracket row admit the category of that bracket and of
   * no other: for a categorised record, exactly one of the four rows of a
   * bracketed segment passes the remarks test.
   */
  lemma BracketRemarksAdmit(b: Bracket, c: Bracket)
    ensures RemarksAdmit(Strip(b.Label()), c.Label()) <==> b == c
  {
    LabelIsPlainRemark(b);
    LabelContains(b, c);
  }

  /**
   * A rule of the record's line of business whose segment is inside the
   * record's and whose remarks are bracket `c`'s label fires exactly for
   * records of category `c`.
   */
  lemma BracketRowFires(rule: Rule, c: Bracket, b: Bracket, lob: Lob, segmentClean: string)
    requires rule.remarks == c.Label() && rule.lob == lob.Name()
    requires Contains(segmentClean, CleanRuleSegment(rule.segment))
    ensures Fires(rule, lob, segmentClean, b.Label()) <==> c == b
  {
    BracketRemarksAdmit(c, b);
  }

  /**
   * The "PVT CAR TP" row's remarks "Zuno - 21" admit no bracket label, so
   * that row never fires for a record that carries a payin category.
   */
  lemma ZunoRuleNeverFires(lob: Lob, segmentClean: string, b: Bracket)
    ensures !Fires(FORMULA_DATA[7], lob, segmentClean, b.Label())
  {
    ZunoRemarksAdmitNoBracket(FORMULA_DATA[7].remarks, b);
  }

  lemma ZunoRemarksAdmitNoBracket(z: string, b: Bracket)
    requires z == FORMULA_DATA[7].remarks
    ensures !RemarksAdmit(Strip(z), b.Label())
  {
    assert z == "Zuno - 21";
    assert 'a' !in Lower(z);
    ShortRemarksAdmitNoLabel(z, b.Label());
  }

  /**
   * Trimmed remarks other than "NIL" and "", without an 'a' in their lower
   * case and shorter than a category, admit no record of that category.
   */
  lemma ShortRemarksAdmitNoLabel(s: string, category: string)
    requires Trimmed(s) && s != "NIL" && s != "" && 'a' !in Lower(s) && |category| > |s|
    ensures !RemarksAdmit(Strip(s), category)
  {
    AbsentCharNeverContained(Lower(s), "all fuel", 0);
    LongerNeverContained(s, category);
  }

  /** The "SCHOOL BUS" rule segment, cleaned, starts with "SC". */
  lemma SchoolBusSegmentStartsSc(raw: string)
    requires raw == FORMULA_DATA[13].segment
    ensures "SC" <= CleanRuleSegment(raw)
  {
    assert Trimmed(raw);
    var u := Upper(raw);
    assert "SC" <= u;
    PrefixSurvivesCollapse(u, "SC");
  }

  /**
   * The "SCHOOL BUS" rule never fires: a segment that contains it contains
   * "SC", and `determine_lob` then answers TW, not BUS.
   */
  lemma SchoolBusRuleNeverFires(segment: string, category: string)
    ensures !Fires(FORMULA_DATA[13], DetermineLob(segment), CleanSegment(segment), category)
  {
    SchoolBusRuleIsBus();
    SchoolBusSegmentStartsSc(FORMULA_DATA[13].segment);
    ScRuleNeverFires(FORMULA_DATA[13], segment, category);
  }

  /** The "SCHOOL BUS" rule is a BUS rule. */
  lemma SchoolBusRuleIsBus()
    ensures FORMULA_DATA[13].lob == "BUS"
  {
  }

  /** A rule outside TW whose cleaned segment starts with "SC" fires for no record. */
  lemma ScRuleNeverFires(rule: Rule, segment: string, category: string)
    requires rule.lob != "TW" && "SC" <= CleanRuleSegment(rule.segment)
    ensures !Fires(rule, DetermineLob(segment), CleanSegment(segment), category)
  {
    var p := CleanRuleSegment(rule.segment);
    if Contains(CleanSegment(segment), p) {
      ScPatternMeansTwoWheeler(segment, p);
    }
  }

  /** A record segment holding a rule segment that starts with "SC" is TW. */
  lemma ScPatternMeansTwoWheeler(segment: string, p: string)
    requires "SC" <= p && Contains(CleanSegment(segment), p)
    ensures DetermineLob(segment) == TW
  {
    ContainsPrefixOfPattern(CleanSegment(segment), p, "SC");
    CollapseKeepsWord(Upper(segment), "SC");
    ScMeansTwoWheeler(segment);
  }

  /** The number of points a bracket row deducts: more for higher payins. */
  function Points(b: Bracket): real {
    match b
    case Below20 => 2.0
    case From21To30 => 3.0
    case From31To50 => 4.0
    case Above50 => 5.0
  }

  lemma ScaleFormulas()
    ensures FormulaOf("90% of Payin") == Scale(0.9)
    ensures FormulaOf("88% of Payin") == Scale(0.88)
  {
    ContainsTrivial("90% of Payin");
    SameLengthContains("88% of Payin", "90% of Payin");
    ContainsTrivial("88% of Payin");
  }

  lemma LessTwoFormula()
    ensures FormulaOf("Less 2% of Payin") == Deduct(2.0)
  {
    var po := "Less 2% of Payin";
    assert '9' !in po && '8' !in po;
    AbsentCharNeverContained(po, "90% of Payin", 0);
    AbsentCharNeverContained(po, "88% of Payin", 0);
    ContainsTrivial(po);
  }

  lemma DeductFormulas()
    ensures FormulaOf("-2%") == Deduct(2.0)
    ensures FormulaOf("-3%") == Deduct(3.0)
    ensures FormulaOf("-4%") == Deduct(4.0)
    ensures FormulaOf("-5%") == Deduct(5.0)
  {
    var pos := ["-2%", "-3%", "-4%", "-5%"];
    forall po | po in pos
      ensures !Contains(po, "90% of Payin") && !Contains(po, "88% of Payin") && !Contains(po, "Less 2% of Payin")
    {
      LongerNeverContained(po, "90% of Payin");
      LongerNeverContained(po, "88% of Payin");
      LongerNeverContained(po, "Less 2% of Payin");
    }
    forall po, q | po in pos && q in pos
      ensures Contains(po, q) <==> po == q
    {
      SameLengthContains(po, q);
    }
  }

  /** The PO texts the table uses. */
  const TABLE_POS: seq<string> := ["90% of Payin", "88% of Payin", "Less 2% of Payin", "-2%", "-3%", "-4%", "-5%"]

  /** The deduction each bracket's rows name. */
  const BRACKET_POS: seq<(Bracket, string)> := [(Below20, "-2%"), (From21To30, "-3%"), (From31To50, "-4%"), (Above50, "-5%")]

  lemma RulePoListed(k: nat)
    requires k < |FORMULA_DATA|
    ensures FORMULA_DATA[k].po in TABLE_POS
  {
  }

  lemma RuleBracketPo(k: nat, b: Bracket)
    requires k < |FORMULA_DATA| && FORMULA_DATA[k].remarks == b.Label()
    ensures (b, FORMULA_DATA[k].po) in BRACKET_POS
  {
  }

  lemma ListedPoHasFormula(po: string)
    requires po in TABLE_POS
    ensures FormulaOf(po) != Unchanged
  {
    ScaleFormulas();
    LessTwoFormula();
    DeductFormulas();
  }

  /** Every PO text in the table is one the payout computation recognises. */
  lemma EveryRuleHasFormula(k: nat)
    requires k < |FORMULA_DATA|
    ensures FormulaOf(FORMULA_DATA[k].po) != Unchanged
  {
    RulePoListed(k);
    ListedPoHasFormula(FORMULA_DATA[k].po);
  }

  /** Distinct brackets have distinct labels. */
  lemma LabelInjective(b: Bracket, c: Bracket)
    requires b.Label() == c.Label()
    ensures b == c
  {
    ContainsTrivial(b.Label());
    LabelContains(b, c);
  }

  /**
   * Bracket rows deduct by their bracket: the row whose remarks are a
   * bracket's label deducts 2, 3, 4 or 5 points, rising with the bracket.
   */
  lemma BracketRowDeducts(k: nat, b: Bracket)
    requires k < |FORMULA_DATA| && FORMULA_DATA[k].remarks == b.Label()
    ensures FormulaOf(FORMULA_DATA[k].po) == Deduct(Points(b))
  {
    RuleBracketPo(k, b);
    DeductFormulas();
  }

  // ---------------------------------------------------------------------
  // The table is grouped by line of business

  /** The line of business of the k-th row. */
  function RowLob(k: nat): Lob {
    if k < 6 then TW
    else if k < 8 then PvtCar
    else if k < 13 then CV
    else if k < 15 then Bus
    else if k < 19 then Taxi
    else Misd
  }

  /** Where the rows of a line of business start. */
  function BlockStart(lob: Lob): nat {
    match lob
    case TW => 0
    case PvtCar => 6
    case CV => 8
    case Bus => 13
    case Taxi => 15
    case Misd => 19
    case Unknown => 20
  }

  /** Where the rows of a line of business end. */
  function BlockEnd(lob: Lob): nat {
    match lob
    case TW => 6
    case PvtCar => 8
    case CV => 13
    case Bus => 15
    case Taxi => 19
    case Misd => 20
    case Unknown => 20
  }

  lemma RowLobColumn(k: nat)
    requires k < |FORMULA_DATA|
    ensures FORMULA_DATA[k].lob == RowLob(k).Name()
  {
  }

  lemma RowLobBlock(k: nat, lob: Lob)
    requires k < |FORMULA_DATA|
    ensures RowLob(k) == lob <==> BlockStart(lob) <= k < BlockEnd(lob)
  {
  }

  /** Only rows of the record's own line of business can fire. */
  lemma OnlyOwnBlockFires(k: nat, lob: Lob, segmentClean: string, category: string)
    requires k < |FORMULA_DATA|
    ensures Fires(FORMULA_DATA[k], lob, segmentClean, category) ==> BlockStart(lob) <= k < BlockEnd(lob)
  {
    RowLobColumn(k);
    NameInjective(RowLob(k), lob);
    RowLobBlock(k, lob);
  }

  /** Rows before the record's own block never fire, so the scan may start at the block. */
  lemma ScanSkipsEarlierBlocks(lob: Lob, segmentClean: string, category: string)
    ensures BlockStart(lob) <= |FORMULA_DATA|
    ensures FirstFiring(FORMULA_DATA, lob, segmentClean, category, 0)
         == FirstFiring(FORMULA_DATA, lob, segmentClean, category, BlockStart(lob))
  {
    forall k | 0 <= k < BlockStart(lob)
      ensures !Fires(FORMULA_DATA[k], lob, segmentClean, category)
    {
      OnlyOwnBlockFires(k, lob, segmentClean, category);
    }
    FirstFiringSkip(FORMULA_DATA, lob, segmentClean, category, 0, BlockStart(lob));
  }

  /** No row fires for a record whose line of business is "UNKNOWN": the table has no such block. */
  lemma UnknownMatchesNoRule(segmentClean: string, category: string)
    ensures FirstFiring(FORMULA_DATA, Unknown, segmentClean, category, 0) == None
  {
    ScanSkipsEarlierBlocks(Unknown, segmentClean, category);
  }

  /** Rows after the record's own block never fire. */
  lemma ScanStopsAtBlockEnd(lob: Lob, segmentClean: string, category: string)
    ensures BlockEnd(lob) <= |FORMULA_DATA|
    ensures FirstFiring(FORMULA_DATA, lob, segmentClean, category, BlockEnd(lob)) == None
  {
    var e := FirstFiring(FORMULA_DATA, lob, segmentClean, category, BlockEnd(lob));
    if e.Some? {
      OnlyOwnBlockFires(e.value, lob, segmentClean, category);
    }
  }
}

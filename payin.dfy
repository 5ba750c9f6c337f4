/**
 * `classify_payin`: turns the payin a record carries (a number, or text
 * such as "35%") into a value and one of four bracket labels.
 */
module Payin {
  import opened Wrappers
  import opened Text
  import opened Values

  /** The four payin brackets; boundaries 20, 30 and 50 belong to the lower one. */
  datatype Bracket = Below20 | From21To30 | From31To50 | Above50 {
    /** The category text stored in `Payin_Category` and matched against rule remarks. */
    function Label(): string {
      match this
      case Below20 => "Payin Below 20%"
      case From21To30 => "Payin 21% to 30%"
      case From31To50 => "Payin 31% to 50%"
      case Above50 => "Payin Above 50%"
    }
  }

  /** The bracket of a numeric payin. */
  function BracketOf(v: real): (b: Bracket)
    ensures b == Below20 <==> v <= 20.0
    ensures b == From21To30 <==> 20.0 < v <= 30.0
    ensures b == From31To50 <==> 30.0 < v <= 50.0
    ensures b == Above50 <==> 50.0 < v
  {
    if v <= 20.0 then Below20
    else if v <= 30.0 then From21To30
    else if v <= 50.0 then From31To50
    else Above50
  }

  /** A payin Python sees as a number (`isinstance(v, (int, float))`; bool is an int). */
  predicate IsNumber(v: Value) {
    v.Int? || v.Float? || v.Bool?
  }

  /**
   * `str(v).replace('%', '').replace(' ', '').replace('-', '').strip()`:
   * every character it has comes from `str(v)`, and every character of
   * `str(v)` other than '%', '-' and whitespace is kept.
   */
  function CleanPayinText(v: Value): (t: string)
    ensures '%' !in t && ' ' !in t && '-' !in t
    ensures forall c :: c in t ==> c in PyStr(v)
    ensures forall c :: c in PyStr(v) && c != '%' && c != '-' && !IsSpace(c) ==> c in t
  {
    var kept := RemoveChar(RemoveChar(RemoveChar(PyStr(v), '%'), ' '), '-');
    StripIsPiece(kept);
    Strip(kept)
  }

  /** The number a numeric payin stands for (`float(v)`). */
  function NumberValue(v: Value): real
    requires IsNumber(v)
  {
    match v
    case Int(i) => i as real
    case Float(x, _) => x
    case Bool(b) => if b then 1.0 else 0.0
  }

  /**
   * `classify_payin`. A number passes through unchanged; text is cleaned and
   * parsed, and when it is empty, "N/A" or unparsable the result is the
   * default `(0.0, Below20)`. Its bracket always follows from its value,
   * and a payin given as text never comes out negative. An integer too large
   * for a double, on which `float()` overflows, is not modelled.
   */
  function ClassifyPayin(v: Value): (r: (real, Bracket))
    ensures r.1 == BracketOf(r.0)
    ensures IsNumber(v) ==> r.0 == NumberValue(v)
    ensures !IsNumber(v) ==> r.0 >= 0.0
  {
    if IsNumber(v) then
      var x := NumberValue(v);
      (x, BracketOf(x))
    else
      var clean := CleanPayinText(v);
      if clean == [] || Upper(clean) == "N/A" then (0.0, Below20)
      else match ParseFloat(clean)
        case None => (0.0, Below20)
        case Some(x) => (x, BracketOf(x))
  }

  /**
   * For text, the explicit empty and "N/A" checks agree with the parse
   * failure default: the result is decided by parsing the cleaned text alone.
   */
  lemma TextPayinIsParsed(v: Value)
    requires !IsNumber(v)
    ensures ParseFloat(CleanPayinText(v)).None? ==> ClassifyPayin(v) == (0.0, Below20)
    ensures ParseFloat(CleanPayinText(v)).Some? ==>
      var x := ParseFloat(CleanPayinText(v)).value; ClassifyPayin(v) == (x, BracketOf(x))
  {
    var parsed := ParseFloat(CleanPayinText(v));
    if parsed.Some? {
      TextParsedAs(v, parsed.value);
    } else {
      TextUnparsed(v);
    }
  }

  /** A text payin that does not parse gets the default. */
  lemma TextUnparsed(v: Value)
    requires !IsNumber(v) && ParseFloat(CleanPayinText(v)).None?
    ensures ClassifyPayin(v) == (0.0, Below20)
  {
  }

  /** "N/A", in any letter case, does not parse as a number. */
  lemma NotAvailableNeverParses(t: string)
    ensures Upper(t) == "N/A" ==> ParseFloat(t).None?
  {
    if Upper(t) == "N/A" && ParseFloat(t).Some? {
      NotAvailableHasNoDigit(t);
      ParseFloatNeedsDigit(t);
      assert false;
    }
  }

  /** Text that upper-cases to "N/A" has no digit in it. */
  lemma NotAvailableHasNoDigit(t: string)
    requires Upper(t) == "N/A"
    ensures forall c :: c in t ==> !IsDigit(c)
  {
    assert |t| == 3;
    assert UpperChar(t[0]) == 'N' && UpperChar(t[1]) == '/' && UpperChar(t[2]) == 'A' by {
      assert Upper(t)[0] == UpperChar(t[0]);
      assert Upper(t)[1] == UpperChar(t[1]);
      assert Upper(t)[2] == UpperChar(t[2]);
    }
    assert t == [t[0], t[1], t[2]];
  }

  /** The three removals leave a digit string unchanged. */
  lemma RemoveOnDigits(d: string)
    requires AllDigits(d)
    ensures RemoveChar(RemoveChar(RemoveChar(d, '%'), ' '), '-') == d
  {
    assert '%' !in d && ' ' !in d && '-' !in d by {
      assert forall c | c in d :: IsDigit(c);
    }
    RemoveAbsent(d, '%');
    RemoveAbsent(d, ' ');
    RemoveAbsent(d, '-');
  }

  /** Cleaning digits, with or without a '-' sign in front, leaves the digits. */
  lemma CleanDigits(d: string)
    requires |d| >= 1 && AllDigits(d)
    ensures CleanPayinText(Str(d)) == d
    ensures CleanPayinText(Str("-" + d)) == d
  {
    RemoveOnDigits(d);
    assert ("-" + d)[1..] == d;
    StripDigits(d);
  }

  /** Text that has nothing for the cleaning to remove or strip. */
  predicate IsCleanText(s: string) {
    '%' !in s && ' ' !in s && '-' !in s && Trimmed(s)
  }

  /** Cleaning leaves clean text exactly as it is. */
  lemma CleanTextUnchanged(d: string)
    requires IsCleanText(d)
    ensures CleanPayinText(Str(d)) == d
  {
    RemoveAbsent(d, '%');
    RemoveAbsent(d, ' ');
    RemoveAbsent(d, '-');
  }

  /** Cleaning `d + "%"` removes the percent sign and gives back exactly `d`. */
  lemma PercentSuffixDropped(d: string)
    requires IsCleanText(d)
    ensures CleanPayinText(Str(d + "%")) == d
  {
    RemoveCharAppend(d, "%", '%');
    assert RemoveChar("%", '%') == [];
    RemoveAbsent(d, '%');
    assert RemoveChar(d + "%", '%') == d;
    CleanTextUnchanged(d);
  }

  /** A percentage `d + "%"` whose number `d` parses to `x` classifies as `x` and its bracket. */
  lemma PercentTextClassifies(d: string, x: real)
    requires IsCleanText(d) && ParseFloat(d) == Some(x)
    ensures ClassifyPayin(Str(d + "%")) == (x, BracketOf(x))
  {
    PercentSuffixDropped(d);
    TextParsedAs(Str(d + "%"), x);
  }

  /** `f"{n}%"` for a natural `n` classifies as `n` and its bracket. */
  lemma NatPercentClassifies(n: nat)
    ensures ClassifyPayin(Str(NatText(n) + "%")) == (n as real, BracketOf(n as real))
  {
    var d := NatText(n);
    assert '%' !in d && ' ' !in d && '-' !in d by {
      assert forall c | c in d :: IsDigit(c);
    }
    StripDigits(d);
    ParseNatFloat(n);
    PercentTextClassifies(d, n as real);
  }

  /** The common input form: "35%" classifies as 35 in the 31-50 bracket. */
  lemma ThirtyFivePercent(s: string)
    requires s == "35%"
    ensures ClassifyPayin(Str(s)) == (35.0, From31To50)
  {
    var n: nat := 35;
    assert NatText(n) + "%" == s;
    NatPercentClassifies(n);
    assert BracketOf(n as real) == From31To50;
  }

  /** A text payin that parses to `x` classifies as `x` and its bracket. */
  lemma TextParsedAs(v: Value, x: real)
    requires !IsNumber(v) && ParseFloat(CleanPayinText(v)) == Some(x)
    ensures ClassifyPayin(v) == (x, BracketOf(x))
  {
    var clean := CleanPayinText(v);
    NotAvailableNeverParses(clean);
    ParseFloatNeedsDigit(clean);
  }

  /** Digits that parse to `x`, with or without a '-' in front, classify as `x`. */
  lemma DigitsClassify(d: string, x: real)
    requires |d| >= 1 && AllDigits(d) && ParseFloat(d) == Some(x)
    ensures ClassifyPayin(Str(d)) == (x, BracketOf(x))
    ensures ClassifyPayin(Str("-" + d)) == (x, BracketOf(x))
  {
    assert ClassifyPayin(Str(d)) == (x, BracketOf(x)) by {
      CleanDigits(d);
      TextParsedAs(Str(d), x);
    }
    assert ClassifyPayin(Str("-" + d)) == (x, BracketOf(x)) by {
      CleanDigits(d);
      TextParsedAs(Str("-" + d), x);
    }
  }

  /** `str(n)` of a non-negative int, given as text, classifies as `n`. */
  lemma NatTextClassifies(n: nat)
    ensures ClassifyPayin(Str(IntText(n))) == (n as real, BracketOf(n as real))
  {
    ParseNatFloat(n);
    DigitsClassify(NatText(n), n as real);
  }

  /**
   * `str(-n)` of a negative int, given as text, classifies as `n`: the '-'
   * sign is removed with the other punctuation.
   */
  lemma NegativeIntTextLosesSign(n: nat)
    requires n > 0
    ensures ClassifyPayin(Str(IntText(-(n as int)))) == (n as real, BracketOf(n as real))
  {
    ParseNatFloat(n);
    DigitsClassify(NatText(n), n as real);
  }
}

/**
 * The Python values a policy record is made of once the extracted JSON has
 * been loaded, and the three built-ins the rule engine applies to them:
 * `str(v)`, `float(v)` and truthiness.
 */
module Values {
  import opened Wrappers
  import opened Text

  /**
   * A JSON value as Python holds it. A float carries the text `str()` gives
   * for it, because rendering binary floating point is not modelled.
   */
  datatype Value =
    | Null
    | Bool(b: bool)
    | Int(i: int)
    | Float(x: real, text: string)
    | Str(s: string)
    | List(items: seq<Value>)

  // ---------------------------------------------------------------------
  // Decimal digits

  predicate IsDigit(c: char) {
    '0' <= c <= '9'
  }

  predicate AllDigits(s: string) {
    forall i :: 0 <= i < |s| ==> IsDigit(s[i])
  }

  function DigitChar(d: nat): (c: char)
    requires d < 10
    ensures IsDigit(c) && c as int - '0' as int == d
  {
    ('0' as int + d) as char
  }

  /** The number a string of decimal digits denotes (0 for the empty string). */
  function DigitsValue(s: string): nat
    requires AllDigits(s)
    decreases |s|
  {
    if s == [] then 0 else 10 * DigitsValue(s[..|s| - 1]) + (s[|s| - 1] as int - '0' as int)
  }

  function Pow10(n: nat): (p: nat)
    ensures p >= 1
  {
    if n == 0 then 1 else 10 * Pow10(n - 1)
  }

  /** Decimal text of a natural number, without leading zeros. */
  function NatText(n: nat): (t: string)
    ensures |t| >= 1 && AllDigits(t)
    decreases n
  {
    if n < 10 then [DigitChar(n)] else NatText(n / 10) + [DigitChar(n % 10)]
  }

  /** `str(i)` for a Python int. */
  function IntText(i: int): string {
    if i < 0 then "-" + NatText(-i) else NatText(i)
  }

  lemma {:induction false} DigitsValueOfNatText(n: nat)
    ensures DigitsValue(NatText(n)) == n
    decreases n
  {
    if n >= 10 {
      DigitsValueOfNatText(n / 10);
      var t := NatText(n);
      assert t[..|t| - 1] == NatText(n / 10);
    }
  }

  // ---------------------------------------------------------------------
  // float(text)

  /** Position of the first '.' in `t`, or `|t|` when there is none. */
  function DotIndex(t: string): (k: nat)
    ensures k <= |t|
    ensures forall i :: 0 <= i < k ==> t[i] != '.'
    ensures k < |t| ==> t[k] == '.'
  {
    if t == [] then 0
    else if t[0] == '.' then 0
    else 1 + DotIndex(t[1..])
  }

  /**
   * An unsigned decimal numeral: digits, optionally one '.', more digits,
   * at least one digit in all ("5", "5.", ".5", "35.25").
   */
  function ParseUnsigned(t: string): (r: Option<real>)
    ensures r.Some? ==> r.value >= 0.0
    ensures r.Some? ==> |t| > 0 && (IsDigit(t[0]) || t[0] == '.')
  {
    var k := DotIndex(t);
    var whole := t[..k];
    var frac := if k < |t| then t[k + 1..] else "";
    if AllDigits(whole) && AllDigits(frac) && |whole| + |frac| > 0 then
      Some(DigitsValue(whole) as real + DigitsValue(frac) as real / Pow10(|frac|) as real)
    else
      None
  }

  /**
   * Python's `float(text)` on a string, restricted to decimal notation:
   * surrounding whitespace is ignored, one optional sign, then an unsigned
   * decimal numeral. `None` stands for the ValueError Python raises.
   */
  function ParseFloat(text: string): (r: Option<real>)
    ensures r.Some? && '-' !in text ==> r.value >= 0.0
  {
    var t := Strip(text);
    assert '-' in t ==> '-' in text by {
      StripIsPiece(text);
    }
    ParseSigned(t)
  }

  /** One optional sign, then an unsigned decimal numeral. */
  function ParseSigned(t: string): (r: Option<real>)
    ensures r.Some? && '-' !in t ==> r.value >= 0.0
  {
    if |t| > 0 && (t[0] == '+' || t[0] == '-') then
      match ParseUnsigned(t[1..])
      case None => None
      case Some(x) =>
        if t[0] == '-' then
          assert t[0] in t;
          Some(-x)
        else Some(x)
    else
      ParseUnsigned(t)
  }

  /** A numeral has a digit; text without one never parses. */
  lemma ParseFloatNeedsDigit(text: string)
    requires ParseFloat(text).Some?
    ensures exists c :: c in text && IsDigit(c)
  {
    var t := Strip(text);
    StripIsPiece(text);
    var u := if |t| > 0 && (t[0] == '+' || t[0] == '-') then t[1..] else t;
    ParseUnsignedDigit(u);
    var c :| c in u && IsDigit(c);
    assert c in t;
  }

  lemma ParseUnsignedDigit(t: string)
    requires ParseUnsigned(t).Some?
    ensures exists c :: c in t && IsDigit(c)
  {
    var k := DotIndex(t);
    if k > 0 {
      assert t[0] in t && IsDigit(t[0]);
    } else {
      assert t[1] in t && IsDigit(t[1]);
    }
  }

  lemma ParseNatText(n: nat)
    ensures ParseUnsigned(NatText(n)) == Some(n as real)
  {
    var d := NatText(n);
    DigitsValueOfNatText(n);
    assert DotIndex(d) == |d| by {
      assert forall i :: 0 <= i < |d| ==> IsDigit(d[i]) && d[i] != '.';
    }
    assert d[..|d|] == d;
  }

  /** A run of digits has no whitespace around it to strip. */
  lemma StripDigits(d: string)
    requires |d| >= 1 && AllDigits(d)
    ensures Trimmed(d)
  {
    assert IsDigit(d[0]) && IsDigit(d[|d| - 1]);
  }

  /** Text that starts with a digit and has nothing to strip parses unsigned. */
  lemma ParseFloatUnsigned(t: string)
    requires Trimmed(t) && |t| > 0 && IsDigit(t[0])
    ensures ParseFloat(t) == ParseUnsigned(t)
  {
    TrimmedParse(t);
    SignedFromDigit(t);
  }

  /** Text that starts with '-' and has nothing to strip parses as a negation. */
  lemma ParseFloatNegated(t: string, x: real)
    requires Trimmed(t) && |t| > 0 && t[0] == '-' && ParseUnsigned(t[1..]) == Some(x)
    ensures ParseFloat(t) == Some(-x)
  {
    TrimmedParse(t);
  }

  /** Text with nothing to strip is parsed as it is. */
  lemma TrimmedParse(t: string)
    requires Trimmed(t)
    ensures ParseFloat(t) == ParseSigned(t)
  {
    assert Strip(t) == t;
  }

  /** Text that starts with a digit has no sign. */
  lemma SignedFromDigit(t: string)
    requires |t| > 0 && IsDigit(t[0])
    ensures ParseSigned(t) == ParseUnsigned(t)
  {
  }

  lemma ParseNatFloat(n: nat)
    ensures ParseFloat(NatText(n)) == Some(n as real)
  {
    var d := NatText(n);
    StripDigits(d);
    ParseNatText(n);
    ParseFloatUnsigned(d);
  }

  /** `float(str(i)) == i`: the decimal text of an int parses back to it. */
  lemma ParseIntText(i: int)
    ensures ParseFloat(IntText(i)) == Some(i as real)
  {
    if i < 0 {
      ParseNegativeIntText(i);
    } else {
      ParseNatFloat(i);
    }
  }

  lemma ParseNegativeIntText(i: int)
    requires i < 0
    ensures ParseFloat(IntText(i)) == Some(i as real)
  {
    assert IntText(i) == "-" + NatText(-i);
    ParseNegatedText(i);
  }

  /** The text of a negative number, '-' and its digits, parses back to it. */
  lemma ParseNegatedText(i: int)
    requires i < 0
    ensures ParseFloat("-" + NatText(-i)) == Some(i as real)
  {
    var d := NatText(-i);
    var t := "-" + d;
    assert t[1..] == d;
    ParseNatText(-i);
    SignedDigitsTrimmed(d);
    ParseFloatNegated(t, -i as real);
  }

  /** '-' followed by digits has nothing to strip. */
  lemma SignedDigitsTrimmed(d: string)
    requires |d| >= 1 && AllDigits(d)
    ensures Trimmed("-" + d)
  {
    assert IsDigit(d[|d| - 1]) && ("-" + d)[|d|] == d[|d| - 1];
  }

  // ---------------------------------------------------------------------
  // str(v), repr(v), truthiness, type names

  /** `str(v)` */
  function PyStr(v: Value): string
    decreases v, 0
  {
    match v
    case Null => "None"
    case Bool(b) => if b then "True" else "False"
    case Int(i) => IntText(i)
    case Float(_, text) => text
    case Str(s) => s
    case List(items) =>
      "[" + Join(", ", seq(|items|, k requires 0 <= k < |items| => Repr(items[k]))) + "]"
  }

  /** `repr(v)`: strings are quoted (quote choice and escapes are not modelled). */
  function Repr(v: Value): string
    decreases v, 1
  {
    if v.Str? then "'" + v.s + "'" else PyStr(v)
  }

  /** Python truthiness, as `if r` tests it. */
  predicate Truthy(v: Value) {
    match v
    case Null => false
    case Bool(b) => b
    case Int(i) => i != 0
    case Float(x, _) => x != 0.0
    case Str(s) => s != ""
    case List(items) => items != []
  }

  function TypeName(v: Value): string {
    match v
    case Null => "NoneType"
    case Bool(_) => "bool"
    case Int(_) => "int"
    case Float(_, _) => "float"
    case Str(_) => "str"
    case List(_) => "list"
  }

  // ---------------------------------------------------------------------
  // Exceptions a record can raise inside the per-record `try`

  datatype Fault =
    | NotANumber(text: string)   // ValueError from float() on a string
    | NotConvertible(v: Value)   // TypeError from float() on None or a list
    | NoStrip(v: Value)          // AttributeError from .strip() on a non-string

  /** `str(e)` for the exception a fault stands for. */
  function Message(f: Fault): string {
    match f
    case NotANumber(text) => "could not convert string to float: '" + text + "'"
    case NotConvertible(v) => "float() argument must be a string or a real number, not '" + TypeName(v) + "'"
    case NoStrip(v) => "'" + TypeName(v) + "' object has no attribute 'strip'"
  }

  /** Python's `float(v)`: numbers convert, strings are parsed, the rest raise. */
  function ToFloat(v: Value): (r: Result<real, Fault>)
    ensures r.Err? <==> v.Null? || v.List? || (v.Str? && ParseFloat(v.s).None?)
    ensures v.Int? ==> r == Ok(v.i as real)
    ensures v.Float? ==> r == Ok(v.x)
    ensures v.Bool? ==> r == Ok(if v.b then 1.0 else 0.0)
    ensures v.Str? && ParseFloat(v.s).Some? ==> r == Ok(ParseFloat(v.s).value)
  {
    match v
    case Null => Err(NotConvertible(v))
    case Bool(b) => Ok(if b then 1.0 else 0.0)
    case Int(i) => Ok(i as real)
    case Float(x, _) => Ok(x)
    case Str(s) => (match ParseFloat(s) case None => Err(NotANumber(s)) case Some(x) => Ok(x))
    case List(_) => Err(NotConvertible(v))
  }

  // ---------------------------------------------------------------------
  // Records

  /**
   * One extracted policy record: the JSON object's fields, plus the two keys
   * the payin annotation writes into the dict (`Payin_Value`,
   * `Payin_Category`), held apart so that they override any JSON key of the
   * same name once written.
   */
  datatype Record = Record(fields: map<string, Value>, payinValue: Option<real>, payinCategory: Option<string>)

  /** `record.get(key, default)` on the JSON fields. */
  function Get(r: Record, key: string, default: Value): Value {
    if key in r.fields then r.fields[key] else default
  }
}

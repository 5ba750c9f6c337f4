/**
 * `determine_lob`: the line of business a policy segment belongs to, found
 * by testing the upper-cased segment against six keyword groups in order.
 */
module LineOfBusiness {
  import opened Text

  datatype Lob = TW | PvtCar | CV | Bus | Taxi | Misd | Unknown {
    /** The name `determine_lob` returns and the rule table's LOB column uses. */
    function Name(): string {
      match this
      case TW => "TW"
      case PvtCar => "PVT CAR"
      case CV => "CV"
      case Bus => "BUS"
      case Taxi => "TAXI"
      case Misd => "MISD"
      case Unknown => "UNKNOWN"
    }
  }

  /** Different lines of business have different names. */
  lemma NameInjective(a: Lob, b: Lob)
    ensures a.Name() == b.Name() ==> a == b
  {
    if a != b {
      assert |a.Name()| != |b.Name()| || a.Name()[0] != b.Name()[0];
    }
  }

  /** `any(kw in text for kw in keywords)` */
  predicate AnyIn(keywords: seq<string>, text: string)
    decreases |keywords|
  {
    keywords != [] && (Contains(text, keywords[0]) || AnyIn(keywords[1..], text))
  }

  lemma {:induction false} AnyInIff(keywords: seq<string>, text: string)
    ensures AnyIn(keywords, text) <==> exists k :: 0 <= k < |keywords| && Contains(text, keywords[k])
    decreases |keywords|
  {
    if keywords != [] {
      AnyInIff(keywords[1..], text);
      assert forall k :: 1 <= k < |keywords| ==> keywords[k] == keywords[1..][k - 1];
    }
  }

  /** A keyword found in the text makes `any` true. */
  lemma AnyInMember(keywords: seq<string>, k: nat, text: string)
    requires k < |keywords| && Contains(text, keywords[k])
    ensures AnyIn(keywords, text)
  {
    AnyInIff(keywords, text);
  }

  /**
   * No keyword occurs when each one has a character the text lacks;
   * `missing[j]` is the position of such a character in the j-th keyword.
   */
  lemma {:induction false} AnyInNone(keywords: seq<string>, text: string, missing: seq<nat>)
    requires |missing| == |keywords|
    requires forall j :: 0 <= j < |keywords| ==> missing[j] < |keywords[j]| && keywords[j][missing[j]] !in text
    ensures !AnyIn(keywords, text)
    decreases |keywords|
  {
    if keywords != [] {
      AbsentCharNeverContained(text, keywords[0], missing[0]);
      AnyInNone(keywords[1..], text, missing[1..]);
    }
  }

  /** The keyword group of each line of business, as `determine_lob` lists it. */
  function Keywords(lob: Lob): seq<string> {
    match lob
    case TW => ["TW", "2W", "MC", "SC", "1+5"]
    case PvtCar => ["PVT CAR", "CAR", "PCI"]
    case CV => ["CV", "GVW", "PCV", "GCV"]
    case Bus => ["BUS"]
    case Taxi => ["TAXI"]
    case Misd => ["MISD", "TRACTOR"]
    case Unknown => []
  }

  /** The position of each group in the order the groups are tried. */
  function Rank(lob: Lob): nat {
    match lob
    case TW => 0
    case PvtCar => 1
    case CV => 2
    case Bus => 3
    case Taxi => 4
    case Misd => 5
    case Unknown => 6
  }

  /**
   * `determine_lob(segment)`, branch by branch. Precedence: the line of
   * business returned has a keyword in the upper-cased segment, and no group
   * tried before it has one there; so "UNKNOWN" means that no group has one.
   */
  function DetermineLob(segment: string): (lob: Lob)
    ensures lob != Unknown ==> AnyIn(Keywords(lob), Upper(segment))
    ensures forall other :: Rank(other) < Rank(lob) ==> !AnyIn(Keywords(other), Upper(segment))
  {
    var u := Upper(segment);
    SingleKeyword("BUS", u);
    SingleKeyword("TAXI", u);
    if AnyIn(Keywords(TW), u) then TW
    else if AnyIn(Keywords(PvtCar), u) then PvtCar
    else if AnyIn(Keywords(CV), u) then CV
    else if Contains(u, "BUS") then Bus
    else if Contains(u, "TAXI") then Taxi
    else if AnyIn(Keywords(Misd), u) then Misd
    else Unknown
  }

  /** A group of one keyword is found exactly when that keyword is. */
  lemma SingleKeyword(keyword: string, text: string)
    ensures AnyIn([keyword], text) <==> Contains(text, keyword)
  {
    assert [keyword][1..] == [];
  }

  /** A segment with "SC" anywhere in it is a two-wheeler, whatever else it says. */
  lemma ScMeansTwoWheeler(segment: string)
    requires Contains(Upper(segment), "SC")
    ensures DetermineLob(segment) == TW
  {
    AnyInMember(Keywords(TW), 3, Upper(segment));
  }

  /**
   * A segment reading "School Bus" in any letter case contains "SC", so it
   * is classified TW, never BUS.
   */
  lemma SchoolBusIsTwoWheeler(segment: string)
    requires Upper(segment) == "SCHOOL BUS"
    ensures DetermineLob(segment) == TW
  {
    ContainsAt("SCHOOL BUS", "SC", 0);
    ScMeansTwoWheeler(segment);
  }

  /** "PVT CAR" never decides: any text that has it also has "CAR". */
  lemma PvtCarKeywordSubsumed(text: string)
    requires Contains(text, "PVT CAR")
    ensures Contains(text, "CAR")
  {
    ContainsIff(text, "PVT CAR");
    var j :| OccursAt(text, "PVT CAR", j);
    assert text[j + 4..j + 7] == text[j..j + 7][4..7];
    ContainsAt(text, "CAR", j + 4);
  }

  /**
   * A segment reading "Staff Bus" in any letter case has no keyword of the
   * first three groups and is a bus.
   */
  lemma StaffBusIsBus(segment: string)
    requires Upper(segment) == "STAFF BUS"
    ensures DetermineLob(segment) == Bus
  {
    StaffBusNotTwoWheeler();
    StaffBusNotCar();
    StaffBusNotCommercial();
    StaffBusHasBus();
  }

  lemma StaffBusHasBus()
    ensures Contains("STAFF BUS", "BUS")
  {
    ContainsAt("STAFF BUS", "BUS", 6);
  }

  lemma StaffBusNotTwoWheeler()
    ensures !AnyIn(Keywords(TW), "STAFF BUS")
  {
    AnyInNone(Keywords(TW), "STAFF BUS", [1, 0, 0, 1, 0]);
  }

  lemma StaffBusNotCar()
    ensures !AnyIn(Keywords(PvtCar), "STAFF BUS")
  {
    AnyInNone(Keywords(PvtCar), "STAFF BUS", [0, 0, 0]);
  }

  lemma StaffBusNotCommercial()
    ensures !AnyIn(Keywords(CV), "STAFF BUS")
  {
    AnyInNone(Keywords(CV), "STAFF BUS", [0, 0, 0, 0]);
  }
}

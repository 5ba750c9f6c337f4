/**
 * The handful of Python string operations the rule engine relies on:
 * `str.upper`/`str.lower`, `str.strip`, `str.replace(c, '')`, the
 * substring test `w in s`, and `re.sub(r'\s+', ' ', s)`.
 * Case mapping and whitespace are those below code point 128.
 */
module Text {

  /**
   * The whitespace below code point 128 that `\s` and `str.strip()` remove:
   * space, tab, the line breaks, vertical tab, form feed and the four
   * separators U+001C to U+001F.
   */
  predicate IsSpace(c: char) {
    c == ' ' || c == '\t' || c == '\n' || c == '\r' || c == '\U{B}' || c == '\U{C}' || '\U{1C}' <= c <= '\U{1F}'
  }

  predicate NoSpace(w: string) {
    forall i :: 0 <= i < |w| ==> !IsSpace(w[i])
  }

  function UpperChar(c: char): char {
    if 'a' <= c <= 'z' then (c as int - 32) as char else c
  }

  function LowerChar(c: char): char {
    if 'A' <= c <= 'Z' then (c as int + 32) as char else c
  }

  /** `s.upper()` */
  function Upper(s: string): string {
    seq(|s|, i requires 0 <= i < |s| => UpperChar(s[i]))
  }

  /** `s.lower()` */
  function Lower(s: string): string {
    seq(|s|, i requires 0 <= i < |s| => LowerChar(s[i]))
  }

  // ---------------------------------------------------------------------
  // Substring test. It is written character by character, with indices, so
  // that Dafny can evaluate it on short literals.

  /** `w[k..]` occurs in `s` starting at position `i + k`. */
  predicate MatchFrom(s: string, w: string, i: nat, k: nat)
    decreases |w| - k
  {
    if k >= |w| then i + k <= |s|
    else i + k < |s| && s[i + k] == w[k] && MatchFrom(s, w, i, k + 1)
  }

  /** Some occurrence of `w` in `s` starts at or after position `i`. */
  predicate ContainsFrom(s: string, w: string, i: nat)
    decreases |s| - i
  {
    i + |w| <= |s| && (MatchFrom(s, w, i, 0) || ContainsFrom(s, w, i + 1))
  }

  /** Python's `w in s` on strings. */
  predicate Contains(s: string, w: string) {
    ContainsFrom(s, w, 0)
  }

  /** `s.startswith(p)` */
  predicate StartsWith(s: string, p: string) {
    MatchFrom(s, p, 0, 0)
  }

  /** `w` occurs in `s` at position `i`. */
  predicate OccursAt(s: string, w: string, i: int) {
    0 <= i && i + |w| <= |s| && s[i..i + |w|] == w
  }

  lemma {:induction false} MatchFromIff(s: string, w: string, i: nat, k: nat)
    requires k <= |w|
    ensures MatchFrom(s, w, i, k) <==> i + |w| <= |s| && s[i + k..i + |w|] == w[k..]
    decreases |w| - k
  {
    if k < |w| {
      MatchFromIff(s, w, i, k + 1);
      if i + |w| <= |s| {
        assert s[i + k..i + |w|] == [s[i + k]] + s[i + k + 1..i + |w|];
        assert w[k..] == [w[k]] + w[k + 1..];
      }
    }
  }

  lemma {:induction false} ContainsFromIff(s: string, w: string, i: nat)
    ensures ContainsFrom(s, w, i) <==> exists j :: i <= j && OccursAt(s, w, j)
    decreases |s| - i
  {
    MatchFromIff(s, w, i, 0);
    assert w[0..] == w;
    assert MatchFrom(s, w, i, 0) <==> OccursAt(s, w, i);
    if i + |w| <= |s| {
      ContainsFromIff(s, w, i + 1);
      if ContainsFrom(s, w, i) {
        if OccursAt(s, w, i) {
          assert i <= i && OccursAt(s, w, i);
        } else {
          var j :| i + 1 <= j && OccursAt(s, w, j);
          assert i <= j && OccursAt(s, w, j);
        }
      }
      if exists j :: i <= j && OccursAt(s, w, j) {
        var j :| i <= j && OccursAt(s, w, j);
        if j == i {
          assert MatchFrom(s, w, i, 0);
        } else {
          assert i + 1 <= j && OccursAt(s, w, j);
          assert ContainsFrom(s, w, i + 1);
        }
      }
    } else {
      forall j | i <= j
        ensures !OccursAt(s, w, j)
      {
      }
    }
  }

  /** The substring test means exactly: `w` occurs at some position of `s`. */
  lemma ContainsIff(s: string, w: string)
    ensures Contains(s, w) <==> exists j :: OccursAt(s, w, j)
  {
    ContainsFromIff(s, w, 0);
  }

  lemma ContainsAt(s: string, w: string, j: int)
    requires OccursAt(s, w, j)
    ensures Contains(s, w)
  {
    ContainsIff(s, w);
  }

  /** The empty string is in every string, and every string is in itself. */
  lemma ContainsTrivial(s: string)
    ensures Contains(s, "") && Contains(s, s)
  {
    ContainsAt(s, "", 0);
    ContainsAt(s, s, 0);
  }

  /** A pattern longer than the text never occurs in it. */
  lemma LongerNeverContained(s: string, w: string)
    requires |w| > |s|
    ensures !Contains(s, w)
  {
    ContainsIff(s, w);
  }

  /** A pattern with a character the text lacks never occurs in it. */
  lemma AbsentCharNeverContained(s: string, w: string, k: nat)
    requires k < |w| && w[k] !in s
    ensures !Contains(s, w)
  {
    ContainsIff(s, w);
    forall j | 0 <= j && j + |w| <= |s|
      ensures !OccursAt(s, w, j)
    {
      assert s[j..j + |w|][k] == s[j + k];
      assert s[j + k] in s;
    }
  }

  /** A pattern with a character the text lacks never occurs in it. */
  lemma AbsentMemberNeverContained(s: string, w: string, c: char)
    requires c in w && c !in s
    ensures !Contains(s, w)
  {
    var k :| 0 <= k < |w| && w[k] == c;
    AbsentCharNeverContained(s, w, k);
  }

  /** An occurrence in a suffix is an occurrence in the whole text. */
  lemma ContainsInSuffix(s: string, w: string, d: nat)
    requires d <= |s| && Contains(s[d..], w)
    ensures Contains(s, w)
  {
    ContainsIff(s[d..], w);
    var j :| OccursAt(s[d..], w, j);
    assert s[d..][j..j + |w|] == s[d + j..d + j + |w|];
    ContainsAt(s, w, d + j);
  }

  /** If `w` occurs in `s`, so does every prefix of `w`. */
  lemma ContainsPrefixOfPattern(s: string, w: string, p: string)
    requires Contains(s, w) && p <= w
    ensures Contains(s, p)
  {
    ContainsIff(s, w);
    var j :| OccursAt(s, w, j);
    assert s[j..j + |p|] == s[j..j + |w|][..|p|];
    ContainsAt(s, p, j);
  }

  /** Two strings of the same length contain each other only when equal. */
  lemma SameLengthContains(s: string, w: string)
    requires |s| == |w|
    ensures Contains(s, w) <==> s == w
  {
    ContainsIff(s, w);
    if s == w {
      assert OccursAt(s, w, 0);
    }
  }

  // ---------------------------------------------------------------------
  // str.strip()

  /** `s.lstrip()` */
  function StripLeft(s: string): (r: string)
    ensures |r| <= |s| && r == s[|s| - |r|..]
    ensures r == [] || !IsSpace(r[0])
    decreases |s|
  {
    if s != [] && IsSpace(s[0]) then StripLeft(s[1..]) else s
  }

  /** `s.rstrip()` */
  function StripRight(s: string): (r: string)
    ensures |r| <= |s| && r == s[..|r|]
    ensures r == [] || !IsSpace(r[|r| - 1])
    decreases |s|
  {
    if s != [] && IsSpace(s[|s| - 1]) then StripRight(s[..|s| - 1]) else s
  }

  /** What `lstrip` cuts off is whitespace. */
  lemma {:induction false} StripLeftCut(s: string)
    ensures forall i :: 0 <= i < |s| - |StripLeft(s)| ==> IsSpace(s[i])
    decreases |s|
  {
    if s != [] && IsSpace(s[0]) {
      StripLeftCut(s[1..]);
      assert forall i :: 1 <= i < |s| ==> s[i] == s[1..][i - 1];
    }
  }

  /** What `rstrip` cuts off is whitespace. */
  lemma {:induction false} StripRightCut(s: string)
    ensures forall i :: |StripRight(s)| <= i < |s| ==> IsSpace(s[i])
    decreases |s|
  {
    if s != [] && IsSpace(s[|s| - 1]) {
      StripRightCut(s[..|s| - 1]);
    }
  }

  /** Neither end of `s` is whitespace. */
  predicate Trimmed(s: string) {
    s == [] || (!IsSpace(s[0]) && !IsSpace(s[|s| - 1]))
  }

  /** `s.strip()`: the result is trimmed, and trimmed text is left alone. */
  function Strip(s: string): (r: string)
    ensures Trimmed(r)
    ensures Trimmed(s) ==> r == s
  {
    var t := StripLeft(s);
    assert StripRight(t) != [] ==> StripRight(t)[0] == t[0];
    StripRight(t)
  }

  /**
   * The stripped text is a piece of `s`, and only whitespace was cut off
   * around it: it keeps every other character of `s` and adds none.
   */
  lemma StripIsPiece(s: string)
    ensures exists d :: OccursAt(s, Strip(s), d)
    ensures forall c :: c in Strip(s) ==> c in s
    ensures forall c :: c in s && !IsSpace(c) ==> c in Strip(s)
  {
    var t := StripLeft(s);
    var r := StripRight(t);
    assert r == Strip(s);
    var d := |s| - |t|;
    assert OccursAt(s, r, d) by {
      assert t == s[d..];
      assert r == t[..|r|];
      assert s[d..][..|r|] == s[d..d + |r|];
    }
    assert forall c :: c in r ==> c in t;
    assert forall c :: c in t ==> c in s;
    StripKeepsNonSpace(s);
  }

  lemma StripKeepsNonSpace(s: string)
    ensures forall c :: c in s && !IsSpace(c) ==> c in StripRight(StripLeft(s))
  {
    var t := StripLeft(s);
    var r := StripRight(t);
    var d := |s| - |t|;
    StripLeftCut(s);
    StripRightCut(t);
    forall c | c in s && !IsSpace(c) ensures c in r {
      var i :| 0 <= i < |s| && s[i] == c;
      assert d <= i;
      assert t[i - d] == c by {
        assert t == s[d..];
      }
      assert i - d < |r|;
      assert r[i - d] == c by {
        assert r == t[..|r|];
      }
    }
  }

  // ---------------------------------------------------------------------
  // str.replace(c, '')

  /** `s.replace(c, '')` for a one-character `c`. */
  function RemoveChar(s: string, c: char): (r: string)
    ensures forall x :: x in r <==> x in s && x != c
    ensures |r| <= |s|
  {
    if s == [] then []
    else if s[0] == c then RemoveChar(s[1..], c)
    else [s[0]] + RemoveChar(s[1..], c)
  }

  /** Removing a character that does not occur changes nothing. */
  lemma {:induction false} RemoveAbsent(s: string, c: char)
    requires c !in s
    ensures RemoveChar(s, c) == s
  {
    if s != [] {
      assert s[1..] + [] == s[1..];
      assert forall x :: x in s[1..] ==> x in s;
      RemoveAbsent(s[1..], c);
      assert [s[0]] + s[1..] == s;
    }
  }

  /** Removal works piece by piece: it keeps the order and the number of the other characters. */
  lemma {:induction false} RemoveCharAppend(a: string, b: string, c: char)
    ensures RemoveChar(a + b, c) == RemoveChar(a, c) + RemoveChar(b, c)
    decreases |a|
  {
    if a == [] {
      assert a + b == b;
    } else {
      assert (a + b)[0] == a[0] && (a + b)[1..] == a[1..] + b;
      RemoveCharAppend(a[1..], b, c);
    }
  }

  // ---------------------------------------------------------------------
  // re.sub(r'\s+', ' ', s)

  /** `s` with its leading run of whitespace removed. */
  function DropSpaces(s: string): (r: string)
    ensures |r| <= |s| && r == s[|s| - |r|..]
    ensures r == [] || !IsSpace(r[0])
    ensures s != [] && IsSpace(s[0]) ==> |r| < |s|
    decreases |s|
  {
    if s != [] && IsSpace(s[0]) then DropSpaces(s[1..]) else s
  }

  /** `re.sub(r'\s+', ' ', s)`: every maximal run of whitespace becomes one plain space. */
  function Collapse(s: string): (r: string)
    ensures |r| <= |s|
    ensures s == [] <==> r == []
    ensures s != [] ==> (IsSpace(s[0]) <==> IsSpace(r[0]))
    decreases |s|
  {
    if s == [] then []
    else if IsSpace(s[0]) then [' '] + Collapse(DropSpaces(s))
    else [s[0]] + Collapse(s[1..])
  }

  /** Dropping leading whitespace keeps every other character. */
  lemma {:induction false} DropSpacesKeeps(s: string)
    ensures forall c :: c in s && !IsSpace(c) ==> c in DropSpaces(s)
    decreases |s|
  {
    if s != [] && IsSpace(s[0]) {
      DropSpacesKeeps(s[1..]);
      forall c | c in s && !IsSpace(c) ensures c in s[1..] {
        var i :| 0 <= i < |s| && s[i] == c;
        assert s[1..][i - 1] == c;
      }
    }
  }

  /**
   * Collapsing whitespace brings in no character but a plain space, and
   * keeps every character that is not whitespace.
   */
  lemma CollapseChars(s: string)
    ensures forall c :: c in Collapse(s) ==> c in s || c == ' '
    ensures forall c :: c in s && !IsSpace(c) ==> c in Collapse(s)
  {
    CollapseAddsOnlySpace(s);
    CollapseKeepsChars(s);
  }

  lemma {:induction false} CollapseAddsOnlySpace(s: string)
    ensures forall c :: c in Collapse(s) ==> c in s || c == ' '
    decreases |s|
  {
    if s != [] {
      var rest := if IsSpace(s[0]) then DropSpaces(s) else s[1..];
      CollapseAddsOnlySpace(rest);
      assert Collapse(s) == [if IsSpace(s[0]) then ' ' else s[0]] + Collapse(rest);
      assert rest == s[|s| - |rest|..];
      assert forall c :: c in rest ==> c in s;
    }
  }

  lemma {:induction false} CollapseKeepsChars(s: string)
    ensures forall c :: c in s && !IsSpace(c) ==> c in Collapse(s)
    decreases |s|
  {
    if s != [] {
      var rest := if IsSpace(s[0]) then DropSpaces(s) else s[1..];
      CollapseKeepsChars(rest);
      assert Collapse(s) == [if IsSpace(s[0]) then ' ' else s[0]] + Collapse(rest);
      if IsSpace(s[0]) {
        DropSpacesKeeps(s);
      } else {
        forall c | c in s && !IsSpace(c) ensures c in Collapse(s) {
          if c != s[0] {
            var i :| 0 <= i < |s| && s[i] == c;
            assert rest[i - 1] == c;
          }
        }
      }
    }
  }

  /** The only whitespace left in the collapsed text is the plain space. */
  lemma {:induction false} CollapseSpacesArePlain(s: string)
    ensures forall i :: 0 <= i < |Collapse(s)| && IsSpace(Collapse(s)[i]) ==> Collapse(s)[i] == ' '
    decreases |s|
  {
    if s != [] {
      var rest := if IsSpace(s[0]) then DropSpaces(s) else s[1..];
      CollapseSpacesArePlain(rest);
      var r := Collapse(s);
      var tail := Collapse(rest);
      assert r == [if IsSpace(s[0]) then ' ' else s[0]] + tail;
      forall i | 0 <= i < |r| && IsSpace(r[i])
        ensures r[i] == ' '
      {
        if i > 0 {
          assert r[i] == tail[i - 1];
        }
      }
    }
  }

  /** The collapsed text never holds two whitespace characters in a row. */
  lemma {:induction false} CollapseNoDoubleSpace(s: string)
    ensures forall i :: 0 <= i < |Collapse(s)| - 1 ==> !(IsSpace(Collapse(s)[i]) && IsSpace(Collapse(s)[i + 1]))
    decreases |s|
  {
    if s != [] {
      var rest := if IsSpace(s[0]) then DropSpaces(s) else s[1..];
      CollapseNoDoubleSpace(rest);
      var r := Collapse(s);
      var tail := Collapse(rest);
      assert r == [if IsSpace(s[0]) then ' ' else s[0]] + tail;
      forall i | 0 <= i < |r| - 1
        ensures !(IsSpace(r[i]) && IsSpace(r[i + 1]))
      {
        if i == 0 {
          if IsSpace(s[0]) {
            assert !IsSpace(tail[0]);
          }
        } else {
          assert r[i] == tail[i - 1] && r[i + 1] == tail[i];
        }
      }
    }
  }

  /** A space-free prefix of the collapsed text is a prefix of the text. */
  lemma {:induction false} CollapsePrefix(u: string, p: string)
    requires NoSpace(p) && p <= Collapse(u)
    ensures p <= u
    decreases |u|
  {
    if p != [] && u != [] {
      assert !IsSpace(u[0]) by {
        assert Collapse(u)[0] == p[0];
      }
      assert Collapse(u) == [u[0]] + Collapse(u[1..]);
      assert p[1..] <= Collapse(u[1..]);
      CollapsePrefix(u[1..], p[1..]);
    }
  }

  /** A space-free prefix of the text is a prefix of the collapsed text. */
  lemma {:induction false} PrefixSurvivesCollapse(u: string, p: string)
    requires NoSpace(p) && p <= u
    ensures p <= Collapse(u)
    decreases |p|
  {
    if p != [] {
      assert !IsSpace(u[0]) && u[0] == p[0];
      CollapseOfWordChar(u);
      assert p[1..] <= u[1..];
      NoSpaceTail(p);
      PrefixSurvivesCollapse(u[1..], p[1..]);
      assert Collapse(u) == [u[0]] + Collapse(u[1..]);
    }
  }

  /** An occurrence after the first position is an occurrence in the tail. */
  lemma OccursInTail(c: string, w: string, j: int)
    requires OccursAt(c, w, j) && j > 0
    ensures OccursAt(c[1..], w, j - 1)
  {
    assert c[1..][j - 1..j - 1 + |w|] == c[j..j + |w|];
  }

  lemma OccursAtStart(c: string, w: string, j: int)
    requires OccursAt(c, w, j) && w != []
    ensures j == 0 ==> c[0] == w[0]
  {
    assert c[j..j + |w|][0] == c[j];
  }

  /** Collapsing text that starts with whitespace. */
  lemma CollapseOfSpace(t: string)
    requires t != [] && IsSpace(t[0])
    ensures Collapse(t) != [] && Collapse(t)[0] == ' ' && Collapse(t)[1..] == Collapse(DropSpaces(t))
  {
    var rest := Collapse(DropSpaces(t));
    assert Collapse(t) == [' '] + rest;
    assert ([' '] + rest)[1..] == rest;
  }

  /** Collapsing text that starts with another character. */
  lemma CollapseOfWordChar(t: string)
    requires t != [] && !IsSpace(t[0])
    ensures Collapse(t) != [] && Collapse(t)[0] == t[0] && Collapse(t)[1..] == Collapse(t[1..])
  {
    var rest := Collapse(t[1..]);
    assert Collapse(t) == [t[0]] + rest;
    assert ([t[0]] + rest)[1..] == rest;
  }

  lemma {:induction false} CollapseWordAt(t: string, w: string, j: int)
    requires NoSpace(w) && w != [] && OccursAt(Collapse(t), w, j)
    ensures Contains(t, w)
    decreases |t|, 1
  {
    if IsSpace(t[0]) {
      CollapseWordAfterSpace(t, w, j);
    } else if j == 0 {
      CollapseWordAtStart(t, w);
    } else {
      CollapseWordAfterChar(t, w, j);
    }
  }

  lemma {:induction false} CollapseWordAfterSpace(t: string, w: string, j: int)
    requires NoSpace(w) && w != [] && OccursAt(Collapse(t), w, j)
    requires t != [] && IsSpace(t[0])
    ensures Contains(t, w)
    decreases |t|, 0
  {
    var d := DropSpaces(t);
    CollapseOfSpace(t);
    assert j != 0 by {
      OccursAtStart(Collapse(t), w, j);
      assert !IsSpace(w[0]);
    }
    OccursInTail(Collapse(t), w, j);
    CollapseWordAt(d, w, j - 1);
    ContainsInSuffix(t, w, |t| - |d|);
  }

  lemma CollapseWordAtStart(t: string, w: string)
    requires NoSpace(w) && w != [] && OccursAt(Collapse(t), w, 0)
    requires t != [] && !IsSpace(t[0])
    ensures Contains(t, w)
  {
    var u := t[1..];
    CollapseOfWordChar(t);
    OccursAtStart(Collapse(t), w, 0);
    PrefixTail(Collapse(t), w);
    NoSpaceTail(w);
    CollapsePrefix(u, w[1..]);
    HeadAndTailPrefix(t, w);
    ContainsAt(t, w, 0);
  }

  lemma PrefixTail(c: string, w: string)
    requires OccursAt(c, w, 0) && w != []
    ensures w[1..] <= c[1..]
  {
    assert w == c[..|w|];
    assert w[1..] == c[1..][..|w| - 1];
  }

  lemma NoSpaceTail(w: string)
    requires w != [] && NoSpace(w)
    ensures NoSpace(w[1..])
  {
    forall i | 0 <= i < |w| - 1 ensures !IsSpace(w[1..][i]) {
      assert w[1..][i] == w[i + 1];
    }
  }

  lemma HeadAndTailPrefix(t: string, w: string)
    requires t != [] && w != [] && w[0] == t[0] && w[1..] <= t[1..]
    ensures OccursAt(t, w, 0)
  {
    forall i | 0 <= i < |w| ensures t[i] == w[i] {
      if i > 0 {
        assert t[i] == t[1..][i - 1] && w[i] == w[1..][i - 1];
      }
    }
    assert t[..|w|] == w;
  }

  lemma {:induction false} CollapseWordAfterChar(t: string, w: string, j: int)
    requires NoSpace(w) && w != [] && OccursAt(Collapse(t), w, j) && j > 0
    requires t != [] && !IsSpace(t[0])
    ensures Contains(t, w)
    decreases |t|, 0
  {
    CollapseOfWordChar(t);
    OccursInTail(Collapse(t), w, j);
    CollapseWordAt(t[1..], w, j - 1);
    ContainsInSuffix(t, w, 1);
  }

  /**
   * Collapsing whitespace creates no new space-free word: a word without
   * whitespace found in `Collapse(t)` was already in `t`.
   */
  lemma CollapseKeepsWord(t: string, w: string)
    requires NoSpace(w) && Contains(Collapse(t), w)
    ensures Contains(t, w)
  {
    ContainsTrivial(t);
    if w != [] {
      ContainsIff(Collapse(t), w);
      var j :| OccursAt(Collapse(t), w, j);
      CollapseWordAt(t, w, j);
    }
  }

  /** `sep.join(parts)` */
  function Join(sep: string, parts: seq<string>): string {
    if parts == [] then ""
    else if |parts| == 1 then parts[0]
    else parts[0] + sep + Join(sep, parts[1..])
  }
}

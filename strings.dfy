/** The string operations the client uses (`startsWith`, `includes`, `split`,
    `join`, `replace` with a string pattern, `toLowerCase`, `trim`), with the
    facts about them that the rest of the model needs. */
module Strings {

  /** `toLowerCase` on one character; only ASCII letters are folded. */
  function LowerChar(c: char): char {
    if 'A' <= c <= 'Z' then (c as int + 32) as char else c
  }

  /** `toLowerCase` on a string (ASCII letters only). */
  function Lower(s: string): (r: string)
    ensures |r| == |s|
    ensures forall i :: 0 <= i < |s| ==> r[i] == LowerChar(s[i])
  {
    seq(|s|, i requires 0 <= i < |s| => LowerChar(s[i]))
  }

  /** `toUpperCase` on one character; only ASCII letters are folded. */
  function UpperChar(c: char): char {
    if 'a' <= c <= 'z' then (c as int - 32) as char else c
  }

  /** `toUpperCase` on a string (ASCII letters only). */
  function Upper(s: string): (r: string)
    ensures |r| == |s|
    ensures forall i :: 0 <= i < |s| ==> r[i] == UpperChar(s[i])
  {
    seq(|s|, i requires 0 <= i < |s| => UpperChar(s[i]))
  }

  /** `s.startsWith(p)`. */
  predicate StartsWith(s: string, p: string) {
    |p| <= |s| && s[..|p|] == p
  }

  /** A concatenation starts with its first part. */
  lemma StartsWithPrefix(p: string, rest: string)
    ensures StartsWith(p + rest, p)
  {
    assert (p + rest)[..|p|] == p;
  }

  /** Appending to a string keeps its prefixes. */
  lemma StartsWithExtend(s: string, p: string, q: string)
    requires StartsWith(s, p)
    ensures StartsWith(s + q, p)
  {
    assert (s + q)[..|p|] == s[..|p|];
  }

  /** `s.endsWith(p)`. */
  predicate EndsWith(s: string, p: string) {
    |p| <= |s| && s[|s| - |p|..] == p
  }

  /** `s.includes(t)`: some position of `s` starts an occurrence of `t`. */
  predicate Contains(s: string, t: string)
    decreases |s|
  {
    StartsWith(s, t) || (|s| > 0 && Contains(s[1..], t))
  }

  /** `t` occurs in `s` starting at position `i`. */
  predicate OccursAt(s: string, t: string, i: int) {
    0 <= i && i + |t| <= |s| && s[i..i + |t|] == t
  }

  /** An occurrence at some position makes `s` contain `t`. */
  lemma {:induction false} OccursContains(s: string, t: string, i: int)
    requires OccursAt(s, t, i)
    ensures Contains(s, t)
    decreases i
  {
    if i == 0 {
      assert s[..|t|] == s[i..i + |t|];
    } else {
      assert s[1..][i - 1..i - 1 + |t|] == s[i..i + |t|];
      OccursContains(s[1..], t, i - 1);
    }
  }

  /** A containment is witnessed by a position where `t` occurs. */
  lemma {:induction false} ContainsOccurs(s: string, t: string)
    requires Contains(s, t)
    ensures exists i :: OccursAt(s, t, i)
    decreases |s|
  {
    if StartsWith(s, t) {
      assert OccursAt(s, t, 0);
    } else {
      var r := s[1..];
      ContainsOccurs(r, t);
      var j :| OccursAt(r, t, j);
      assert s[j + 1..j + 1 + |t|] == r[j..j + |t|];
      assert OccursAt(s, t, j + 1);
    }
  }

  /** `Contains` holds exactly when some position of `s` starts an occurrence of `t`. */
  lemma ContainsIffOccurs(s: string, t: string)
    ensures Contains(s, t) <==> exists i :: OccursAt(s, t, i)
  {
    if Contains(s, t) {
      ContainsOccurs(s, t);
    }
    forall i | OccursAt(s, t, i) ensures Contains(s, t) {
      OccursContains(s, t, i);
    }
  }

  /** Every string contains the empty string. */
  lemma ContainsEmpty(s: string)
    ensures Contains(s, "")
  {
    assert StartsWith(s, "");
  }

  /** `parts.join(sep)`. */
  function Join(sep: string, parts: seq<string>): string
    decreases |parts|
  {
    if |parts| == 0 then ""
    else if |parts| == 1 then parts[0]
    else parts[0] + sep + Join(sep, parts[1..])
  }

  /** The text that `Join` places before element `i`: the earlier elements and a separator. */
  function JoinedBefore(sep: string, parts: seq<string>, i: nat): string
    requires i <= |parts|
  {
    if i == 0 then "" else Join(sep, parts[..i]) + sep
  }

  /** The text that `Join` places after element `i`: a separator and the later elements. */
  function JoinedAfter(sep: string, parts: seq<string>, i: nat): string
    requires i < |parts|
  {
    if i == |parts| - 1 then "" else sep + Join(sep, parts[i + 1..])
  }

  /** The text before element `i > 0` is the first element, a separator and
      the text before element `i - 1` of the rest. */
  lemma JoinedBeforeStep(sep: string, parts: seq<string>, i: nat)
    requires 0 < i < |parts|
    ensures JoinedBefore(sep, parts, i) == parts[0] + sep + JoinedBefore(sep, parts[1..], i - 1)
  {
    if i > 1 {
      assert parts[..i][1..] == parts[1..][..i - 1];
    } else {
      assert parts[..i] == [parts[0]];
    }
  }

  /** A joined string is the text before element `i`, element `i` itself, and the text after it. */
  lemma {:induction false} JoinAround(sep: string, parts: seq<string>, i: nat)
    requires i < |parts|
    ensures Join(sep, parts) == JoinedBefore(sep, parts, i) + parts[i] + JoinedAfter(sep, parts, i)
    decreases i
  {
    if i == 0 {
      JoinAroundFirst(sep, parts);
    } else {
      JoinAround(sep, parts[1..], i - 1);
      JoinAroundStep(sep, parts, i);
    }
  }

  /** The first element has nothing before it. */
  lemma JoinAroundFirst(sep: string, parts: seq<string>)
    requires 0 < |parts|
    ensures Join(sep, parts) == JoinedBefore(sep, parts, 0) + parts[0] + JoinedAfter(sep, parts, 0)
  {
    if |parts| > 1 {
      assert parts[1..] == parts[0 + 1..];
    }
  }

  /** The decomposition around element `i - 1` of the rest gives the one around element `i`. */
  lemma JoinAroundStep(sep: string, parts: seq<string>, i: nat)
    requires 0 < i < |parts|
    requires Join(sep, parts[1..]) == JoinedBefore(sep, parts[1..], i - 1) + parts[1..][i - 1] + JoinedAfter(sep, parts[1..], i - 1)
    ensures Join(sep, parts) == JoinedBefore(sep, parts, i) + parts[i] + JoinedAfter(sep, parts, i)
  {
    var tail := parts[1..];
    JoinUnfold(sep, parts);
    JoinedBeforeStep(sep, parts, i);
    JoinedAfterStep(sep, parts, i);
    assert tail[i - 1] == parts[i];
    Regroup(parts[0] + sep, Join(sep, tail), JoinedBefore(sep, tail, i - 1), parts[i], JoinedAfter(sep, parts, i));
  }

  /** A list of two or more elements joins as its first element, a separator and the joined rest. */
  lemma JoinUnfold(sep: string, parts: seq<string>)
    requires 1 < |parts|
    ensures Join(sep, parts) == parts[0] + sep + Join(sep, parts[1..])
  {
  }

  lemma Regroup(x: string, j: string, b: string, m: string, a: string)
    requires j == b + m + a
    ensures x + j == (x + b) + m + a
  {
  }

  /** The text after element `i > 0` is the text after element `i - 1` of the rest. */
  lemma JoinedAfterStep(sep: string, parts: seq<string>, i: nat)
    requires 0 < i < |parts|
    ensures JoinedAfter(sep, parts[1..], i - 1) == JoinedAfter(sep, parts, i)
  {
    if i < |parts| - 1 {
      assert parts[1..][i..] == parts[i + 1..];
    }
  }

  /** Two lists that differ in exactly one element join to different strings,
      whatever the separator and the other elements are. */
  lemma JoinDistinguishes(sep: string, parts: seq<string>, i: nat, a: string, b: string)
    requires i < |parts|
    requires a != b
    ensures Join(sep, parts[i := a]) != Join(sep, parts[i := b])
  {
    var pa, pb := parts[i := a], parts[i := b];
    JoinAround(sep, pa, i);
    JoinAround(sep, pb, i);
    assert pa[..i] == pb[..i];
    if i < |parts| - 1 {
      assert pa[i + 1..] == pb[i + 1..];
    }
    var before, after := JoinedBefore(sep, pa, i), JoinedAfter(sep, pa, i);
    assert JoinedBefore(sep, pb, i) == before;
    assert JoinedAfter(sep, pb, i) == after;
    if |a| == |b| {
      assert (before + a + after)[|before|..|before| + |a|] == a;
      assert (before + b + after)[|before|..|before| + |b|] == b;
    }
  }

  /** `s.split(c)` for a one-character separator: the maximal separator-free pieces. */
  function Split(s: string, c: char): (parts: seq<string>)
    ensures |parts| >= 1
    decreases |s|
  {
    if |s| == 0 then [""]
    else if s[0] == c then [""] + Split(s[1..], c)
    else
      var rest := Split(s[1..], c);
      [[s[0]] + rest[0]] + rest[1..]
  }

  /** No piece produced by `Split` contains the separator. */
  lemma {:induction false} SplitPiecesFree(s: string, c: char)
    ensures forall k :: 0 <= k < |Split(s, c)| ==> c !in Split(s, c)[k]
    decreases |s|
  {
    if |s| > 0 {
      SplitPiecesFree(s[1..], c);
    }
  }

  /** Joining the pieces of a split with the separator gives back the string. */
  lemma {:induction false} JoinSplit(s: string, c: char)
    ensures Join([c], Split(s, c)) == s
    decreases |s|
  {
    if |s| > 0 {
      var rest := Split(s[1..], c);
      JoinSplit(s[1..], c);
      if s[0] == c {
        assert Split(s, c)[1..] == rest;
      } else {
        var head := [s[0]] + rest[0];
        var ps := [head] + rest[1..];
        if |rest| == 1 {
          assert Join([c], ps) == head;
        } else {
          assert ps[1..] == rest[1..];
          assert Join([c], rest) == rest[0] + [c] + Join([c], rest[1..]);
        }
      }
    }
  }

  /** Splitting a join of separator-free pieces gives back the pieces. */
  lemma {:induction false} SplitJoin(parts: seq<string>, c: char)
    requires |parts| >= 1
    requires forall k :: 0 <= k < |parts| ==> c !in parts[k]
    ensures Split(Join([c], parts), c) == parts
    decreases |parts|, |parts[0]|
  {
    var p := parts[0];
    if |p| == 0 {
      if |parts| > 1 {
        var tail := parts[1..];
        SplitJoin(tail, c);
        assert Join([c], parts) == [c] + Join([c], tail);
        assert ([c] + Join([c], tail))[1..] == Join([c], tail);
      }
    } else {
      var shorter := parts[0 := p[1..]];
      assert c !in p[1..] by {
        forall x | x in p[1..] ensures x != c { assert x in p; }
      }
      SplitJoin(shorter, c);
      var s := Join([c], parts);
      if |parts| == 1 {
        assert s == p;
        assert s[1..] == Join([c], shorter);
      } else {
        assert shorter[1..] == parts[1..];
        assert s == p + [c] + Join([c], parts[1..]);
        assert s[1..] == Join([c], shorter);
      }
      assert s[0] == p[0] && p[0] != c;
      var rest := Split(s[1..], c);
      assert rest == shorter;
      assert [p[0]] + rest[0] == p;
      assert [[s[0]] + rest[0]] + rest[1..] == parts;
    }
  }

  /** The first piece of `s.split(c)`, that is, `s` up to the first `c`. */
  function BeforeFirst(s: string, c: char): (r: string)
    ensures StartsWith(s, r) && c !in r
    ensures |r| < |s| ==> s[|r|] == c
    decreases |s|
  {
    if |s| == 0 || s[0] == c then "" else [s[0]] + BeforeFirst(s[1..], c)
  }

  /** `BeforeFirst` is the first piece of `Split`. */
  lemma {:induction false} BeforeFirstIsFirstPiece(s: string, c: char)
    ensures BeforeFirst(s, c) == Split(s, c)[0]
    decreases |s|
  {
    if |s| > 0 && s[0] != c {
      BeforeFirstIsFirstPiece(s[1..], c);
    }
  }

  /** `s.replace(pat, rep)` with a string pattern: only the first occurrence is replaced. */
  function ReplaceFirst(s: string, pat: string, rep: string): string
    decreases |s|
  {
    if StartsWith(s, pat) then rep + s[|pat|..]
    else if |s| == 0 then s
    else [s[0]] + ReplaceFirst(s[1..], pat, rep)
  }

  /** `i` is where `pat` first occurs in `s`. */
  predicate FirstOccurrence(s: string, pat: string, i: int) {
    OccursAt(s, pat, i) && forall j :: 0 <= j < i ==> !OccursAt(s, pat, j)
  }

  /** `s.indexOf(pat)`: the first position where `pat` occurs, or -1. */
  function IndexOf(s: string, pat: string): (i: int)
    ensures i == -1 <==> !Contains(s, pat)
    ensures i != -1 ==> FirstOccurrence(s, pat, i)
    decreases |s|
  {
    if StartsWith(s, pat) then
      assert OccursAt(s, pat, 0) by { assert s[0..|pat|] == s[..|pat|]; }
      0
    else if |s| == 0 then -1
    else
      var k := IndexOf(s[1..], pat);
      if k == -1 then
        assert forall j :: 0 <= j && j + |pat| <= |s| ==> !OccursAt(s, pat, j) by {
          forall j | 0 <= j && j + |pat| <= |s| && OccursAt(s, pat, j) ensures false {
            OccursContains(s, pat, j);
          }
        }
        -1
      else
        assert OccursAt(s, pat, k + 1) by { assert s[k + 1..k + 1 + |pat|] == s[1..][k..k + |pat|]; }
        assert forall j :: 1 <= j < k + 1 ==> !OccursAt(s, pat, j) by {
          forall j | 1 <= j < k + 1 && OccursAt(s, pat, j) ensures false {
            assert s[1..][j - 1..j - 1 + |pat|] == s[j..j + |pat|];
            assert OccursAt(s[1..], pat, j - 1);
          }
        }
        assert !OccursAt(s, pat, 0) by { assert s[0..|pat|] == s[..|pat|]; }
        k + 1
  }

  /** The text with the first occurrence of `pat` cut out, located by `IndexOf`. */
  function EraseFirst(s: string, pat: string): (r: string)
    ensures !Contains(s, pat) ==> r == s
    ensures Contains(s, pat) ==> |r| == |s| - |pat|
  {
    var i := IndexOf(s, pat);
    if i == -1 then s else s[..i] + s[i + |pat|..]
  }

  /** `ReplaceFirst` puts `rep` in place of the first occurrence of `pat`,
      and leaves the text around it as it was. */
  lemma {:induction false} ReplaceFirstAtIndex(s: string, pat: string, rep: string)
    ensures IndexOf(s, pat) == -1 ==> ReplaceFirst(s, pat, rep) == s
    ensures IndexOf(s, pat) != -1 ==>
      ReplaceFirst(s, pat, rep) == s[..IndexOf(s, pat)] + rep + s[IndexOf(s, pat) + |pat|..]
    decreases |s|
  {
    if StartsWith(s, pat) {
      assert IndexOf(s, pat) == 0;
      assert s[..0] == "";
    } else if |s| > 0 {
      var t := s[1..];
      ReplaceFirstAtIndex(t, pat, rep);
      var k := IndexOf(t, pat);
      assert ReplaceFirst(s, pat, rep) == [s[0]] + ReplaceFirst(t, pat, rep);
      if k != -1 {
        assert IndexOf(s, pat) == k + 1;
        ConsSplice(s, k, |pat|, rep);
      } else {
        assert IndexOf(s, pat) == -1;
        assert [s[0]] + t == s;
      }
    }
  }

  /** Splicing after the first character commutes with putting it back. */
  lemma ConsSplice(s: string, k: nat, n: nat, rep: string)
    requires 1 + k + n <= |s|
    ensures [s[0]] + (s[1..][..k] + rep + s[1..][k + n..]) == s[..k + 1] + rep + s[k + 1 + n..]
  {
    assert [s[0]] + s[1..][..k] == s[..k + 1];
    assert s[1..][k + n..] == s[k + 1 + n..];
  }

  /** Erasing with `replace` is cutting out the first occurrence. */
  lemma ReplaceFirstErases(s: string, pat: string)
    ensures ReplaceFirst(s, pat, "") == EraseFirst(s, pat)
  {
    ReplaceFirstAtIndex(s, pat, "");
    var i := IndexOf(s, pat);
    if i != -1 {
      assert s[..i] + "" == s[..i];
    }
  }

  /** Erasing the first occurrence never lengthens a string, and erasing a
      pattern that does not occur changes nothing. */
  lemma {:induction false} ReplaceFirstErase(s: string, pat: string)
    ensures |ReplaceFirst(s, pat, "")| <= |s|
    ensures !Contains(s, pat) ==> ReplaceFirst(s, pat, "") == s
    decreases |s|
  {
    if !StartsWith(s, pat) && |s| > 0 {
      ReplaceFirstErase(s[1..], pat);
    }
  }

  /** A join ends with its last element. */
  lemma {:induction false} JoinEndsWithLast(sep: string, parts: seq<string>)
    requires |parts| > 0
    ensures EndsWith(Join(sep, parts), parts[|parts| - 1])
    decreases |parts|
  {
    if |parts| > 1 {
      JoinEndsWithLast(sep, parts[1..]);
      var rest := Join(sep, parts[1..]);
      var w := parts[0] + sep + rest;
      assert w[|w| - |rest|..] == rest;
      assert w[|w| - |parts[|parts| - 1]|..] == rest[|rest| - |parts[|parts| - 1]|..];
    }
  }

  /** Every element of a join occurs in it. */
  lemma JoinContainsParts(sep: string, parts: seq<string>)
    ensures forall i :: 0 <= i < |parts| ==> Contains(Join(sep, parts), parts[i])
  {
    forall i | 0 <= i < |parts|
      ensures Contains(Join(sep, parts), parts[i])
    {
      JoinAround(sep, parts, i);
      var before := JoinedBefore(sep, parts, i);
      assert OccursAt(Join(sep, parts), parts[i], |before|) by {
        assert Join(sep, parts)[|before|..|before| + |parts[i]|] == parts[i];
      }
      OccursContains(Join(sep, parts), parts[i], |before|);
    }
  }

  /** Replacing a pattern that does not occur leaves the string unchanged. */
  lemma {:induction false} ReplaceFirstAbsent(s: string, pat: string, rep: string)
    requires !Contains(s, pat)
    ensures ReplaceFirst(s, pat, rep) == s
    decreases |s|
  {
    if |s| > 0 {
      ReplaceFirstAbsent(s[1..], pat, rep);
    }
  }

  /** A string shorter than the pattern cannot contain it. */
  lemma {:induction false} NotContainsShorter(s: string, pat: string)
    requires |s| < |pat|
    ensures !Contains(s, pat)
    decreases |s|
  {
    if |s| > 0 {
      NotContainsShorter(s[1..], pat);
    }
  }

  /** A pattern in which no character of `p` starts is found right after
      `p`, so replacing it strips it off. */
  lemma {:induction false} ReplaceFirstAfter(p: string, pat: string)
    requires |pat| > 0
    requires forall i :: 0 <= i < |p| ==> p[i] != pat[0]
    ensures ReplaceFirst(p + pat, pat, "") == p
    decreases |p|
  {
    if |p| == 0 {
      assert p + pat == pat;
      assert StartsWith(pat, pat);
    } else {
      assert (p + pat)[0] == p[0];
      assert !StartsWith(p + pat, pat);
      assert (p + pat)[1..] == p[1..] + pat;
      ReplaceFirstAfter(p[1..], pat);
    }
  }

  /** The characters `trim` removes: ECMAScript white space (tab, vertical tab,
      form feed, the byte order mark and every space separator) and line
      terminators (line feed, carriage return, line and paragraph separator). */
  predicate IsSpace(c: char) {
    c == '\t' || c == '\U{B}' || c == '\U{C}' || c == '\U{FEFF}'
    || c == ' ' || c == '\U{A0}' || c == '\U{1680}' || ('\U{2000}' <= c <= '\U{200A}')
    || c == '\U{202F}' || c == '\U{205F}' || c == '\U{3000}'
    || c == '\n' || c == '\r' || c == '\U{2028}' || c == '\U{2029}'
  }

  /** `s.trim()`: drops leading and trailing whitespace. */
  function Trim(s: string): (r: string)
    ensures |r| <= |s|
    ensures r == "" || (!IsSpace(r[0]) && !IsSpace(r[|r| - 1]))
    decreases |s|
  {
    if |s| == 0 then s
    else if IsSpace(s[0]) then Trim(s[1..])
    else if IsSpace(s[|s| - 1]) then Trim(s[..|s| - 1])
    else s
  }
}

/**
 * The handful of Python `str` operations the core relies on, on `seq<char>`:
 * `find`, `rfind`, `in`, `startswith`, `replace`, `strip`, `lower`, `upper`,
 * `join` and the decimal rendering of an integer.
 */
module Strings {

  /** `p` occurs in `s` starting at index `i`. */
  predicate OccursAt(s: string, p: string, i: int) {
    0 <= i && i + |p| <= |s| && s[i..i + |p|] == p
  }

  /** Python's `s.startswith(p)`. */
  predicate StartsWith(s: string, p: string) {
    |p| <= |s| && s[..|p|] == p
  }

  function FindFrom(s: string, p: string, i: nat): (r: int)
    requires i <= |s|
    ensures r == -1 || (i <= r && OccursAt(s, p, r))
    ensures r == -1 ==> forall j :: i <= j ==> !OccursAt(s, p, j)
    ensures r != -1 ==> forall j :: i <= j < r ==> !OccursAt(s, p, j)
    decreases |s| - i
  {
    if i + |p| > |s| then -1
    else if s[i..i + |p|] == p then i
    else if i == |s| then -1
    else FindFrom(s, p, i + 1)
  }

  /** Python's `s.find(p)`: the first index where `p` occurs, or -1. */
  function Find(s: string, p: string): (r: int)
    ensures r == -1 || OccursAt(s, p, r)
    ensures r == -1 ==> forall j :: 0 <= j ==> !OccursAt(s, p, j)
    ensures r != -1 ==> forall j :: 0 <= j < r ==> !OccursAt(s, p, j)
  {
    FindFrom(s, p, 0)
  }

  /** Python's `p in s` for two strings. */
  predicate Contains(s: string, p: string) {
    Find(s, p) != -1
  }

  lemma ContainsIff(s: string, p: string)
    ensures Contains(s, p) <==> exists j :: OccursAt(s, p, j)
  {
    if Contains(s, p) {
      assert OccursAt(s, p, Find(s, p));
    }
  }

  /** Python's `s.find(c)` for one character. */
  function FindChar(s: string, c: char): (r: int)
    ensures -1 <= r < |s|
    ensures r >= 0 ==> s[r] == c && forall j :: 0 <= j < r ==> s[j] != c
    ensures r == -1 <==> c !in s
  {
    if |s| == 0 then -1
    else if s[0] == c then 0
    else
      var r := FindChar(s[1..], c);
      assert c in s[1..] ==> c in s;
      assert c in s && s[0] != c ==> c in s[1..];
      if r == -1 then -1 else r + 1
  }

  /** Python's `s.rfind(c)` for one character. */
  function RFindChar(s: string, c: char): (r: int)
    ensures -1 <= r < |s|
    ensures r >= 0 ==> s[r] == c && forall j :: r < j < |s| ==> s[j] != c
    ensures r == -1 <==> c !in s
  {
    if |s| == 0 then -1
    else if s[|s| - 1] == c then |s| - 1
    else
      var r := RFindChar(s[..|s| - 1], c);
      assert c in s[..|s| - 1] ==> c in s;
      assert c in s && s[|s| - 1] != c ==> c in s[..|s| - 1];
      r
  }

  /** The last occurrence is where `c` stands with no `c` after it. */
  lemma RFindCharAt(s: string, c: char, i: nat)
    requires i < |s| && s[i] == c && forall j :: i < j < |s| ==> s[j] != c
    ensures RFindChar(s, c) == i
  {
  }

  /**
   * Python's `s.replace(p, r)` for a non-empty `p`: every occurrence found by a
   * left-to-right scan, occurrences not overlapping, is replaced by `r`.
   */
  function ReplaceAll(s: string, p: string, r: string): string
    requires |p| > 0
    decreases |s|
  {
    var i := Find(s, p);
    if i == -1 then s else s[..i] + r + ReplaceAll(s[i + |p|..], p, r)
  }

  /** Replacing a pattern that does not occur changes nothing. */
  lemma ReplaceAbsent(s: string, p: string, r: string)
    requires |p| > 0 && !Contains(s, p)
    ensures ReplaceAll(s, p, r) == s
  {
  }

  /** The text before the first occurrence is kept and the occurrence itself is replaced. */
  lemma {:induction false} ReplaceFirst(a: string, p: string, b: string, r: string)
    requires |p| > 0
    requires forall j :: 0 <= j ==> !OccursAt(a + p, p, j) || j >= |a|
    ensures ReplaceAll(a + p + b, p, r) == a + r + ReplaceAll(b, p, r)
  {
    var s := a + p + b;
    assert s[|a|..|a| + |p|] == p;
    assert OccursAt(s, p, |a|);
    forall j | 0 <= j < |a|
      ensures !OccursAt(s, p, j)
    {
      if OccursAt(s, p, j) {
        assert s[j..j + |p|] == (a + p)[j..j + |p|];
        assert OccursAt(a + p, p, j);
      }
    }
    var i := Find(s, p);
    assert i == |a|;
    assert s[..i] == a;
    assert s[i + |p|..] == b;
  }

  /** The first occurrence is one with none before it. */
  lemma FindIs(s: string, p: string, i: nat)
    requires OccursAt(s, p, i) && forall j :: 0 <= j < i ==> !OccursAt(s, p, j)
    ensures Find(s, p) == i
  {
  }

  /** An occurrence in the tail `b` of `a + b` is one in the whole, shifted by `|a|`. */
  lemma OccursShift(a: string, b: string, p: string, j: int)
    ensures OccursAt(b, p, j) <==> j + |a| >= |a| && OccursAt(a + b, p, j + |a|)
  {
    if 0 <= j && j + |p| <= |b| {
      assert (a + b)[j + |a|..j + |a| + |p|] == b[j..j + |p|];
    }
  }

  /** With no occurrence starting in `a`, the first one in `a + b` is the first one in `b`, shifted. */
  lemma FindShift(a: string, b: string, p: string)
    requires forall j :: 0 <= j < |a| ==> !OccursAt(a + b, p, j)
    ensures Find(a + b, p) == if Find(b, p) == -1 then -1 else Find(b, p) + |a|
  {
    var k := Find(b, p);
    if k == -1 {
      forall j | |a| <= j
        ensures !OccursAt(a + b, p, j)
      {
        OccursShift(a, b, p, j - |a|);
      }
    } else {
      OccursShift(a, b, p, k);
      forall j | |a| <= j < k + |a|
        ensures !OccursAt(a + b, p, j)
      {
        OccursShift(a, b, p, j - |a|);
      }
      FindIs(a + b, p, k + |a|);
    }
  }

  /** One step of the replacement scan, at the first occurrence `i`. */
  lemma ReplaceAt(s: string, p: string, r: string, i: nat, rest: string)
    requires |p| > 0 && Find(s, p) == i && rest == s[i + |p|..]
    ensures ReplaceAll(s, p, r) == s[..i] + r + ReplaceAll(rest, p, r)
  {
  }

  /** An occurrence at the very front is replaced first. */
  lemma ReplaceFront(p: string, b: string, r: string)
    requires |p| > 0
    ensures ReplaceAll(p + b, p, r) == r + ReplaceAll(b, p, r)
  {
    assert (p + b)[0..|p|] == p;
    FindIs(p + b, p, 0);
    ReplaceAt(p + b, p, r, 0, b);
  }

  lemma Regroup(x: string, y: string, z: string, w: string)
    ensures x + y + z + w == x + (y + z + w)
  {
  }

  /** A prefix in which no occurrence starts is kept as it is. */
  lemma {:induction false} ReplacePrefixClean(a: string, b: string, p: string, r: string)
    requires |p| > 0
    requires forall j :: 0 <= j < |a| ==> !OccursAt(a + b, p, j)
    ensures ReplaceAll(a + b, p, r) == a + ReplaceAll(b, p, r)
  {
    FindShift(a, b, p);
    var k := Find(b, p);
    if k == -1 {
      ReplaceAbsent(a + b, p, r);
      ReplaceAbsent(b, p, r);
    } else {
      var s := a + b;
      var i := k + |a|;
      var rest := b[k + |p|..];
      assert s[i + |p|..] == rest;
      ReplaceAt(s, p, r, i, rest);
      ReplaceAt(b, p, r, k, rest);
      assert s[..i] == a + b[..k];
      Regroup(a, b[..k], r, ReplaceAll(rest, p, r));
    }
  }

  /**
   * The text between the occurrences a left-to-right scan finds: the pieces
   * of `s` around each replaced `p`.
   */
  function Pieces(s: string, p: string): (ps: seq<string>)
    requires |p| > 0
    ensures |ps| >= 1
    decreases |s|
  {
    var i := Find(s, p);
    if i == -1 then [s] else [s[..i]] + Pieces(s[i + |p|..], p)
  }

  /** One step of the scan: the piece before the first occurrence, then the pieces after it. */
  lemma PiecesUnfold(s: string, p: string)
    requires |p| > 0 && Find(s, p) != -1
    ensures Pieces(s, p) == [s[..Find(s, p)]] + Pieces(s[Find(s, p) + |p|..], p)
  {
  }

  /** Joining a piece with the joined rest. */
  lemma JoinCons(x: string, ps: seq<string>, sep: string)
    requires |ps| >= 1
    ensures Join([x] + ps, sep) == x + sep + Join(ps, sep)
  {
    assert ([x] + ps)[1..] == ps;
  }

  /** The pieces join with `p` back to `s`. */
  lemma {:induction false} PiecesJoin(s: string, p: string)
    requires |p| > 0
    ensures Join(Pieces(s, p), p) == s
    decreases |s|
  {
    var i := Find(s, p);
    if i != -1 {
      var rest := s[i + |p|..];
      PiecesUnfold(s, p);
      PiecesJoin(rest, p);
      JoinCons(s[..i], Pieces(rest, p), p);
      assert s[i..i + |p|] == p;
      assert s == s[..i] + p + rest;
    }
  }

  /** `s.replace(p, r)` joins the pieces with `r`. */
  lemma {:induction false} ReplaceAllJoin(s: string, p: string, r: string)
    requires |p| > 0
    ensures ReplaceAll(s, p, r) == Join(Pieces(s, p), r)
    decreases |s|
  {
    var i := Find(s, p);
    if i == -1 {
      ReplaceAbsent(s, p, r);
    } else {
      var rest := s[i + |p|..];
      PiecesUnfold(s, p);
      ReplaceAllJoin(rest, p, r);
      JoinCons(s[..i], Pieces(rest, p), r);
      ReplaceAt(s, p, r, i, rest);
    }
  }

  /** No occurrence starts inside the text before the first one, even when it is completed by that one. */
  lemma PieceHeadClean(s: string, p: string)
    requires |p| > 0 && Find(s, p) != -1
    ensures !Contains(s[..Find(s, p)] + p[..|p| - 1], p)
  {
    var i := Find(s, p);
    var head := s[..i] + p[..|p| - 1];
    assert s[i..i + |p|] == p;
    assert head == s[..i + |p| - 1];
    if Contains(head, p) {
      var j := Find(head, p);
      assert head[j..j + |p|] == s[j..j + |p|];
      assert OccursAt(s, p, j);
    }
  }

  /** The pieces after the first are those of the text after the first occurrence. */
  lemma PiecesTail(s: string, p: string, k: nat)
    requires |p| > 0 && Find(s, p) != -1 && 0 < k < |Pieces(s, p)|
    ensures Pieces(s, p)[k] == Pieces(s[Find(s, p) + |p|..], p)[k - 1]
  {
    PiecesUnfold(s, p);
  }

  /** The last piece is that of the text after the first occurrence. */
  lemma LastPieceOfTail(s: string, p: string)
    requires |p| > 0 && Find(s, p) != -1
    ensures var ps := Pieces(s[Find(s, p) + |p|..], p);
      Pieces(s, p)[|Pieces(s, p)| - 1] == ps[|ps| - 1]
  {
    PiecesUnfold(s, p);
  }

  /** Without an occurrence the only piece is the whole text. */
  lemma OnlyPiece(s: string, p: string)
    requires |p| > 0 && Find(s, p) == -1
    ensures Pieces(s, p) == [s]
  {
  }

  /** The last piece has no `p`. */
  lemma {:induction false} LastPieceClean(s: string, p: string)
    requires |p| > 0
    ensures !Contains(Pieces(s, p)[|Pieces(s, p)| - 1], p)
    decreases |s|
  {
    if Find(s, p) == -1 {
      OnlyPiece(s, p);
    } else {
      LastPieceClean(s[Find(s, p) + |p|..], p);
      LastPieceOfTail(s, p);
    }
  }

  /** No `p` starts inside a piece other than the last, even with the `p` after it. */
  lemma {:induction false} PiecesLeftmost(s: string, p: string)
    requires |p| > 0
    ensures forall k :: 0 <= k < |Pieces(s, p)| - 1 ==> !Contains(Pieces(s, p)[k] + p[..|p| - 1], p)
    decreases |s|
  {
    var i := Find(s, p);
    if i != -1 {
      var rest := s[i + |p|..];
      PiecesLeftmost(rest, p);
      forall k | 0 <= k < |Pieces(s, p)| - 1
        ensures !Contains(Pieces(s, p)[k] + p[..|p| - 1], p)
      {
        if k == 0 {
          PiecesUnfold(s, p);
          PieceHeadClean(s, p);
        } else {
          PiecesTail(s, p, k);
        }
      }
    }
  }

  /**
   * `s.replace(p, r)` joins with `r` the pieces that join with `p` back to
   * `s`. The last piece has no `p`, and no `p` starts inside any other piece,
   * not even one completed by the `p` after it: the scan replaces the
   * leftmost occurrence each time.
   */
  lemma ReplaceAllPieces(s: string, p: string, r: string)
    requires |p| > 0
    ensures Join(Pieces(s, p), p) == s
    ensures ReplaceAll(s, p, r) == Join(Pieces(s, p), r)
    ensures !Contains(Pieces(s, p)[|Pieces(s, p)| - 1], p)
    ensures forall k :: 0 <= k < |Pieces(s, p)| - 1 ==> !Contains(Pieces(s, p)[k] + p[..|p| - 1], p)
  {
    PiecesJoin(s, p);
    ReplaceAllJoin(s, p, r);
    LastPieceClean(s, p);
    PiecesLeftmost(s, p);
  }

  /**
   * A replacement can complete a new occurrence from the text around an old
   * one, which the scan then leaves in place: `'{{x}}'.replace('{x}', 'x')`
   * is `'{x}'`.
   */
  lemma ReplaceCanLeavePattern()
    ensures ReplaceAll("{{x}}", "{x}", "x") == "{x}" && Contains("{x}", "{x}")
  {
    var s := "{{x}}";
    assert !OccursAt(s, "{x}", 0) by { assert s[1] != "{x}"[1]; }
    assert OccursAt(s, "{x}", 1) by { assert s[1..4] == "{x}"; }
    FindIs(s, "{x}", 1);
    assert s[..1] == "{" && s[4..] == "}";
    assert Find("}", "{x}") == -1;
    assert OccursAt("{x}", "{x}", 0);
  }

  /** Python's `s.replace(a, b)` for single characters. */
  function ReplaceChar(s: string, a: char, b: char): (r: string)
    ensures |r| == |s|
    ensures forall i :: 0 <= i < |s| ==> r[i] == (if s[i] == a then b else s[i])
  {
    if |s| == 0 then [] else [if s[0] == a then b else s[0]] + ReplaceChar(s[1..], a, b)
  }

  function StripLeft(s: string, c: char): (r: string)
    ensures |r| <= |s| && r == s[|s| - |r|..]
    ensures forall i :: 0 <= i < |s| - |r| ==> s[i] == c
    ensures |r| > 0 ==> r[0] != c
  {
    if |s| > 0 && s[0] == c then StripLeft(s[1..], c) else s
  }

  function StripRight(s: string, c: char): (r: string)
    ensures |r| <= |s| && r == s[..|r|]
    ensures forall i :: |r| <= i < |s| ==> s[i] == c
    ensures |r| > 0 ==> r[|r| - 1] != c
  {
    if |s| > 0 && s[|s| - 1] == c then StripRight(s[..|s| - 1], c) else s
  }

  /** `r` is `s` with `i` copies of `c` cut from the front and only `c` cut from the back. */
  predicate CutOnlyAround(s: string, c: char, i: int, r: string) {
    && 0 <= i <= |s| - |r|
    && r == s[i..i + |r|]
    && (forall j :: 0 <= j < i ==> s[j] == c)
    && (forall j :: i + |r| <= j < |s| ==> s[j] == c)
  }

  /**
   * Python's `s.strip(c)`: the longest middle slice of `s` that neither starts
   * nor ends with `c`; everything cut away on either side is `c`.
   */
  function Strip(s: string, c: char): (r: string)
    ensures exists i :: CutOnlyAround(s, c, i, r)
    ensures |r| > 0 ==> r[0] != c && r[|r| - 1] != c
  {
    StripCut(s, c);
    StripRight(StripLeft(s, c), c)
  }

  /** Stripping both ends cuts only `c` from either side. */
  lemma {:induction false} StripCut(s: string, c: char)
    ensures CutOnlyAround(s, c, |s| - |StripLeft(s, c)|, StripRight(StripLeft(s, c), c))
  {
    var left := StripLeft(s, c);
    var r := StripRight(left, c);
    var i := |s| - |left|;
    assert left == s[i..];
    SliceOfSuffix(s, i, |r|);
    StripRightOfSuffix(s, c, i);
  }

  /** Whatever stripping the back of a suffix cuts away is `c`. */
  lemma StripRightOfSuffix(s: string, c: char, i: nat)
    requires i <= |s|
    ensures forall j :: i + |StripRight(s[i..], c)| <= j < |s| ==> s[j] == c
  {
    var left := s[i..];
    var r := StripRight(left, c);
    forall j | i + |r| <= j < |s|
      ensures s[j] == c
    {
      assert left[j - i] == c;
    }
  }

  /** A prefix of a suffix is a middle slice. */
  lemma SliceOfSuffix(s: string, i: nat, n: nat)
    requires i + n <= |s|
    ensures s[i..][..n] == s[i..i + n]
  {
  }

  /** Stripping a character keeps out any character the text did not have. */
  lemma {:induction false} StripKeepsAbsent(s: string, c: char, d: char)
    requires forall j :: 0 <= j < |s| ==> s[j] != d
    ensures forall j :: 0 <= j < |Strip(s, c)| ==> Strip(s, c)[j] != d
  {
    var r := Strip(s, c);
    var i :| CutOnlyAround(s, c, i, r);
    forall j | 0 <= j < |r|
      ensures r[j] != d
    {
      assert r[j] == s[i + j];
    }
  }

  function LowerChar(c: char): char {
    if 'A' <= c <= 'Z' then (c as int + 32) as char else c
  }

  function UpperChar(c: char): char {
    if 'a' <= c <= 'z' then (c as int - 32) as char else c
  }

  /** Python's `s.lower()` on ASCII letters. */
  function Lower(s: string): (r: string)
    ensures |r| == |s| && forall i :: 0 <= i < |s| ==> r[i] == LowerChar(s[i])
  {
    if |s| == 0 then [] else [LowerChar(s[0])] + Lower(s[1..])
  }

  /** Python's `s.upper()` on ASCII letters. */
  function Upper(s: string): (r: string)
    ensures |r| == |s| && forall i :: 0 <= i < |s| ==> r[i] == UpperChar(s[i])
  {
    if |s| == 0 then [] else [UpperChar(s[0])] + Upper(s[1..])
  }

  lemma LowerUpperChar(c: char)
    requires !('A' <= c <= 'Z')
    ensures LowerChar(UpperChar(c)) == c
  {
    if 'a' <= c <= 'z' {
      var u := (c as int - 32) as char;
      assert 'A' <= u <= 'Z';
      assert (u as int + 32) as char == c;
    }
  }

  /** Lower-casing undoes upper-casing on a string without upper-case letters. */
  lemma LowerUpper(s: string)
    requires forall i :: 0 <= i < |s| ==> !('A' <= s[i] <= 'Z')
    ensures Lower(Upper(s)) == s
  {
    var u := Upper(s);
    forall i | 0 <= i < |s|
      ensures Lower(u)[i] == s[i]
    {
      LowerUpperChar(s[i]);
    }
  }

  /** Python's `sep.join(parts)`. */
  function Join(parts: seq<string>, sep: string): string {
    if |parts| == 0 then ""
    else if |parts| == 1 then parts[0]
    else parts[0] + sep + Join(parts[1..], sep)
  }

  function DigitChar(d: nat): char
    requires d < 10
  {
    "0123456789"[d]
  }

  function NatToString(n: nat): (r: string)
    ensures |r| > 0
    ensures forall i :: 0 <= i < |r| ==> '0' <= r[i] <= '9'
    decreases n
  {
    if n < 10 then [DigitChar(n)] else NatToString(n / 10) + [DigitChar(n % 10)]
  }

  /** Python's `str(n)` for an integer. */
  function IntToString(n: int): string {
    if n < 0 then "-" + NatToString(-n) else NatToString(n)
  }
}

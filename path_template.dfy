/**
 * OpenAPI path templates such as `/users/{id}/posts/{post}`: literal text
 * and `{name}` placeholders, neither holding a brace. On such a URL a
 * `str.replace` of one placeholder fills exactly the segments that are that
 * placeholder, whatever the replacement text is.
 */
module PathTemplates {
  import opened Strings

  datatype Segment = Literal(text: string) | Hole(name: string)

  predicate BraceFree(s: string) {
    forall i :: 0 <= i < |s| ==> s[i] != '{' && s[i] != '}'
  }

  /** The placeholder text for `name`. */
  function Brace(name: string): string {
    "{" + name + "}"
  }

  /** What a segment holds between its delimiters, if it has any. */
  function Content(seg: Segment): string {
    match seg
    case Literal(text) => text
    case Hole(name) => name
  }

  function Text(seg: Segment): string {
    match seg
    case Literal(text) => text
    case Hole(name) => Brace(name)
  }

  /** No segment holds a brace of its own. */
  predicate Template(t: seq<Segment>) {
    forall i :: 0 <= i < |t| ==> BraceFree(Content(t[i]))
  }

  function Render(t: seq<Segment>): string
    decreases |t|
  {
    if t == [] then "" else Text(t[0]) + Render(t[1..])
  }

  /** Every `{name}` segment becomes the literal `r`; nothing else changes. */
  function Fill(t: seq<Segment>, name: string, r: string): (f: seq<Segment>)
    ensures |f| == |t|
    ensures forall i :: 0 <= i < |t| ==> f[i] == if t[i] == Hole(name) then Literal(r) else t[i]
    decreases |t|
  {
    if t == [] then [] else [if t[0] == Hole(name) then Literal(r) else t[0]] + Fill(t[1..], name, r)
  }

  /** Filling with brace-free text keeps a template a template. */
  lemma FillTemplate(t: seq<Segment>, name: string, r: string)
    requires Template(t) && BraceFree(r)
    ensures Template(Fill(t, name, r))
  {
    var f := Fill(t, name, r);
    forall i | 0 <= i < |f|
      ensures BraceFree(Content(f[i]))
    {
      if t[i] == Hole(name) {
        assert Content(f[i]) == r;
      }
    }
  }

  /**
   * `{name}` cannot start inside a segment other than `{name}` itself: a
   * literal has no `{`, and another placeholder's closing brace or its own
   * text stands where that of `{name}` would have to be.
   */
  lemma NotInSegment(seg: Segment, b: string, name: string)
    requires seg != Hole(name) && BraceFree(Content(seg)) && BraceFree(name)
    ensures forall j :: 0 <= j < |Text(seg)| ==> !OccursAt(Text(seg) + b, Brace(name), j)
  {
    var a := Text(seg);
    var s := a + b;
    var p := Brace(name);
    forall j | 0 <= j < |a|
      ensures !OccursAt(s, p, j)
    {
      if j + |p| <= |s| {
        var w := s[j..j + |p|];
        match seg {
          case Literal(text) =>
            assert w[0] == text[j] != p[0];
          case Hole(n) =>
            if j > 0 {
              assert w[0] == a[j];
              if j <= |n| {
                assert a[j] == n[j - 1];
              }
              assert w[0] != p[0];
            } else if |name| == |n| {
              assert n != name;
              var m :| 0 <= m < |n| && n[m] != name[m];
              assert w[m + 1] == n[m] != name[m] == p[m + 1];
            } else if |name| < |n| {
              assert w[|name| + 1] == n[|name|] != p[|name| + 1];
            } else {
              assert w[|n| + 1] == '}' != name[|n|] == p[|n| + 1];
            }
        }
      }
    }
  }

  /**
   * `Render(t).replace('{' + name + '}', r)` renders `t` with the `{name}`
   * segments filled with `r`.
   */
  lemma {:induction false} RenderFill(t: seq<Segment>, name: string, r: string)
    requires Template(t) && BraceFree(name)
    ensures ReplaceAll(Render(t), Brace(name), r) == Render(Fill(t, name, r))
    decreases |t|
  {
    var p := Brace(name);
    if t == [] {
      assert Find("", p) == -1;
    } else {
      var rest := Render(t[1..]);
      var f := Fill(t, name, r);
      RenderFill(t[1..], name, r);
      assert f[1..] == Fill(t[1..], name, r);
      if t[0] == Hole(name) {
        ReplaceFront(p, rest, r);
      } else {
        NotInSegment(t[0], rest, name);
        ReplacePrefixClean(Text(t[0]), rest, p, r);
      }
    }
  }

  /** Where a `{name}` segment stands, its placeholder text occurs. */
  lemma {:induction false} HoleOccurs(t: seq<Segment>, name: string, i: nat)
    requires i < |t| && t[i] == Hole(name)
    ensures Contains(Render(t), Brace(name))
    decreases i
  {
    var p := Brace(name);
    var a := Text(t[0]);
    var b := Render(t[1..]);
    if i == 0 {
      assert (a + b)[0..|p|] == p;
      assert OccursAt(Render(t), p, 0);
    } else {
      assert t[1..][i - 1] == t[i];
      HoleOccurs(t[1..], name, i - 1);
      ContainsIff(b, p);
      var j :| OccursAt(b, p, j);
      OccursShift(a, b, p, j);
    }
    ContainsIff(Render(t), p);
  }

  /** Without a `{name}` segment, a template's rendering holds no `{name}` at all. */
  lemma {:induction false} NoHoleNoPlaceholder(t: seq<Segment>, name: string)
    requires Template(t) && BraceFree(name)
    requires forall i :: 0 <= i < |t| ==> t[i] != Hole(name)
    ensures forall j :: !OccursAt(Render(t), Brace(name), j)
    decreases |t|
  {
    if t != [] {
      var p := Brace(name);
      var a := Text(t[0]);
      var b := Render(t[1..]);
      assert forall i :: 0 <= i < |t[1..]| ==> t[1..][i] == t[i + 1];
      NoHoleNoPlaceholder(t[1..], name);
      NotInSegment(t[0], b, name);
      forall j | |a| <= j
        ensures !OccursAt(a + b, p, j)
      {
        OccursShift(a, b, p, j - |a|);
      }
    }
  }

  /** The placeholder text occurs in a rendered template exactly when the template has that placeholder. */
  lemma PlaceholderIn(t: seq<Segment>, name: string)
    requires Template(t) && BraceFree(name)
    ensures Contains(Render(t), Brace(name)) <==> exists i :: 0 <= i < |t| && t[i] == Hole(name)
  {
    if exists i :: 0 <= i < |t| && t[i] == Hole(name) {
      var i :| 0 <= i < |t| && t[i] == Hole(name);
      HoleOccurs(t, name, i);
    } else {
      NoHoleNoPlaceholder(t, name);
      ContainsIff(Render(t), Brace(name));
    }
  }
}

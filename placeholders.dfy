/**
 * Templates with `$name$` placeholders, filled in by repeated calls of
 * str.replace. A template is viewed as a sequence of pieces: literal text
 * and holes. The main lemma, ReplaceRendered, says that replacing the
 * string `'$' + n + '$'` in a rendered template is the same as turning
 * every hole named `n` into text, so that no placeholder is touched
 * except the ones replaced.
 */
module Placeholders {
  import opened Outcomes
  import opened Strings

  datatype Piece = Text(text: string) | Hole(name: string)

  /** The string `'$' + name + '$'` that the source replaces. */
  function Placeholder(name: string): (p: string)
    ensures |p| == |name| + 2 && p[0] == '$' && p[|p| - 1] == '$'
  {
    "$" + name + "$"
  }

  function RenderPiece(p: Piece): string {
    match p
    case Text(t) => t
    case Hole(n) => Placeholder(n)
  }

  /** The template as the string the source holds. */
  function Render(ps: seq<Piece>): string {
    if ps == [] then "" else RenderPiece(ps[0]) + Render(ps[1..])
  }

  predicate PieceOk(p: Piece) {
    match p
    case Text(t) => '$' !in t
    case Hole(n) => n != [] && '$' !in n
  }

  predicate StartsWithSpace(p: Piece) {
    p.Text? && p.text != [] && IsSpace(p.text[0])
  }

  /**
   * Texts hold no '$'; hole names are non-empty and hold no '$'; and the
   * piece after a hole is text that starts with whitespace (in the source's
   * template every placeholder is followed by a blank).
   */
  predicate WellFormed(ps: seq<Piece>) {
    && (forall i :: 0 <= i < |ps| ==> PieceOk(ps[i]))
    && (forall i :: 0 <= i < |ps| - 1 ==> ps[i].Hole? ==> StartsWithSpace(ps[i + 1]))
  }

  /** A name whose placeholder can be replaced safely: no '$', no leading whitespace. */
  predicate PatternName(n: string) {
    '$' !in n && (n == [] || !IsSpace(n[0]))
  }

  /** The names of the holes still open in `ps`. */
  function HoleNames(ps: seq<Piece>): set<string> {
    set i | 0 <= i < |ps| && ps[i].Hole? :: ps[i].name
  }

  /** Every hole named `n` becomes the text `v`; every other piece stays as it is. */
  function Subst(ps: seq<Piece>, n: string, v: string): (r: seq<Piece>)
    ensures |r| == |ps|
    ensures forall i :: 0 <= i < |ps| ==> r[i] == if ps[i] == Hole(n) then Text(v) else ps[i]
  {
    if ps == [] then []
    else [if ps[0] == Hole(n) then Text(v) else ps[0]] + Subst(ps[1..], n, v)
  }

  lemma {:induction false} RenderAppend(ps: seq<Piece>, qs: seq<Piece>)
    ensures Render(ps + qs) == Render(ps) + Render(qs)
  {
    if ps == [] {
      assert ps + qs == qs;
    } else {
      assert (ps + qs)[1..] == ps[1..] + qs;
      RenderAppend(ps[1..], qs);
    }
  }

  lemma SubstWellFormed(ps: seq<Piece>, n: string, v: string)
    requires WellFormed(ps) && '$' !in v
    ensures WellFormed(Subst(ps, n, v))
  {
  }

  /** A '$' followed by whitespace, or by nothing, starts no placeholder. */
  lemma DollarBeforeSpace(r: string, n: string, v: string)
    requires PatternName(n)
    requires r == [] || IsSpace(r[0])
    ensures Replace("$" + r, Placeholder(n), v) == "$" + Replace(r, Placeholder(n), v)
  {
    var s := "$" + r;
    var pat := Placeholder(n);
    assert s[1..] == r;
    if |s| >= |pat| {
      assert s[..|pat|] != pat by {
        assert s[1] == r[0];
        if n == [] {
          assert pat[1] == '$';
        } else {
          assert pat[1] == n[0];
        }
      }
    }
  }

  /** The placeholder of `n` does not start at the placeholder of another name `m`. */
  lemma OtherPlaceholder(m: string, r: string, n: string)
    requires m != n && '$' !in m && PatternName(n)
    ensures !OccursAt(Placeholder(m) + r, Placeholder(n), 0)
  {
    var pat := Placeholder(n);
    var s := Placeholder(m) + r;
    if |pat| <= |s| {
      var front := s[..|pat|];
      if |m| == |n| {
        assert front[1..|pat| - 1] == m && pat[1..|pat| - 1] == n;
      } else if |m| > |n| {
        assert front[|n| + 1] == m[|n|] && pat[|n| + 1] == '$';
      } else {
        assert front[|m| + 1] == '$' && pat[|m| + 1] == n[|m|];
      }
      assert front != pat;
    }
  }

  /** A hole whose name differs from `n` passes through the replacement of `$n$` unchanged. */
  lemma OtherHole(m: string, r: string, n: string, v: string)
    requires m != n && m != [] && '$' !in m && PatternName(n)
    requires r == [] || IsSpace(r[0])
    ensures Replace(Placeholder(m) + r, Placeholder(n), v) == Placeholder(m) + Replace(r, Placeholder(n), v)
  {
    var pat := Placeholder(n);
    var rest := Replace(r, pat, v);
    var mid := Replace("$" + r, pat, v);
    assert mid == "$" + rest by { DollarBeforeSpace(r, n, v); }
    assert Replace(m + ("$" + r), pat, v) == m + mid by { ReplaceSkipsPrefix(m, "$" + r, pat, v); }
    OtherHoleStart(m, r, n, v);
    PlaceholderThen(m, rest);
  }

  lemma PlaceholderThen(m: string, x: string)
    ensures Placeholder(m) + x == "$" + (m + ("$" + x))
  {
  }

  /** The leading '$' of another placeholder is kept as it is. */
  lemma OtherHoleStart(m: string, r: string, n: string, v: string)
    requires m != n && '$' !in m && PatternName(n)
    ensures Replace(Placeholder(m) + r, Placeholder(n), v) == "$" + Replace(m + ("$" + r), Placeholder(n), v)
  {
    var s := Placeholder(m) + r;
    OtherPlaceholder(m, r, n);
    ReplaceStep(s, Placeholder(n), v);
    assert s[0] == '$' && s[1..] == m + ("$" + r);
  }

  /**
   * str.replace of the placeholder `$n$` on a rendered template replaces
   * exactly the holes named `n`.
   */
  lemma {:induction false} ReplaceRendered(ps: seq<Piece>, n: string, v: string)
    requires WellFormed(ps) && PatternName(n) && '$' !in v
    ensures Replace(Render(ps), Placeholder(n), v) == Render(Subst(ps, n, v))
  {
    if ps != [] {
      var rest := Render(ps[1..]);
      var pat := Placeholder(n);
      assert Render(ps) == RenderPiece(ps[0]) + rest;
      assert WellFormed(ps[1..]) by {
        forall i | 0 <= i < |ps[1..]| - 1 && ps[1..][i].Hole?
          ensures StartsWithSpace(ps[1..][i + 1])
        {
          assert ps[i + 1].Hole?;
        }
      }
      ReplaceRendered(ps[1..], n, v);
      assert Subst(ps, n, v)[1..] == Subst(ps[1..], n, v);
      match ps[0]
      case Text(t) =>
        ReplaceSkipsPrefix(t, rest, pat, v);
      case Hole(m) =>
        if m == n {
          assert (pat + rest)[..|pat|] == pat;
          assert (pat + rest)[|pat|..] == rest;
        } else {
          if |ps| > 1 {
            assert StartsWithSpace(ps[1]);
            assert Render(ps[1..]) == RenderPiece(ps[1]) + Render(ps[2..]);
            assert rest[0] == ps[1].text[0];
          }
          OtherHole(m, rest, n, v);
        }
    }
  }

  // ---------------------------------------------------------------- templates built from segments

  /** A placeholder and the text that follows it, up to the next placeholder. */
  datatype Segment = Segment(hole: string, text: string)

  predicate SegmentOk(s: Segment) {
    s.hole != [] && '$' !in s.hole && '$' !in s.text && s.text != [] && IsSpace(s.text[0])
  }

  /** The template that starts with the text `head` and goes on with the segments in order. */
  function Assemble(head: string, segs: seq<Segment>): (ps: seq<Piece>)
    ensures |ps| == 2 * |segs| + 1
    ensures ps[0] == Text(head)
    ensures forall k :: 0 <= k < |segs| ==> ps[2 * k + 1] == Hole(segs[k].hole) && ps[2 * k + 2] == Text(segs[k].text)
    decreases |segs|
  {
    if segs == [] then [Text(head)]
    else
      var last := segs[|segs| - 1];
      Assemble(head, segs[..|segs| - 1]) + [Hole(last.hole), Text(last.text)]
  }

  lemma AssembleWellFormed(head: string, segs: seq<Segment>)
    requires '$' !in head
    requires forall k :: 0 <= k < |segs| ==> SegmentOk(segs[k])
    ensures WellFormed(Assemble(head, segs))
  {
    AssemblePiecesOk(head, segs);
    AssembleSpacesAfterHoles(head, segs);
  }

  lemma AssemblePiecesOk(head: string, segs: seq<Segment>)
    requires '$' !in head
    requires forall k :: 0 <= k < |segs| ==> SegmentOk(segs[k])
    ensures var ps := Assemble(head, segs); forall i :: 0 <= i < |ps| ==> PieceOk(ps[i])
  {
    var ps := Assemble(head, segs);
    forall i | 0 <= i < |ps| ensures PieceOk(ps[i]) {
      if i > 0 {
        var k := SegmentIndex(i);
        assert SegmentOk(segs[k]);
        if i == 2 * k + 1 {
          assert ps[i] == Hole(segs[k].hole);
        } else {
          assert ps[i] == Text(segs[k].text);
        }
      }
    }
  }

  lemma AssembleSpacesAfterHoles(head: string, segs: seq<Segment>)
    requires forall k :: 0 <= k < |segs| ==> SegmentOk(segs[k])
    ensures var ps := Assemble(head, segs); forall i :: 0 <= i < |ps| - 1 ==> ps[i].Hole? ==> StartsWithSpace(ps[i + 1])
  {
    var ps := Assemble(head, segs);
    forall i | 0 <= i < |ps| - 1 && ps[i].Hole? ensures StartsWithSpace(ps[i + 1]) {
      var k := HoleAt(head, segs, i);
      assert SegmentOk(segs[k]);
      assert ps[i + 1] == Text(segs[k].text);
    }
  }

  /** A hole of an assembled template is the hole of some segment k, at index 2k + 1. */
  lemma HoleAt(head: string, segs: seq<Segment>, i: nat) returns (k: nat)
    requires i < |Assemble(head, segs)| && Assemble(head, segs)[i].Hole?
    ensures k < |segs| && i == 2 * k + 1
  {
    k := SegmentIndex(i);
    assert k < |segs|;
    assert Assemble(head, segs)[2 * k + 2] == Text(segs[k].text) || 2 * k + 2 >= |Assemble(head, segs)|;
  }

  /** Index i > 0 of an assembled template is the hole or the text of segment (i - 1) / 2. */
  lemma SegmentIndex(i: nat) returns (k: nat)
    requires i > 0
    ensures i == 2 * k + 1 || i == 2 * k + 2
  {
    k := (i - 1) / 2;
  }

  lemma AssembleHoles(head: string, segs: seq<Segment>)
    ensures HoleNames(Assemble(head, segs)) == set k | 0 <= k < |segs| :: segs[k].hole
  {
    var ps := Assemble(head, segs);
    forall n | n in HoleNames(ps) ensures n in set k | 0 <= k < |segs| :: segs[k].hole {
      var i :| 0 <= i < |ps| && ps[i].Hole? && ps[i].name == n;
      assert i != 0;
      var k := SegmentIndex(i);
      assert ps[2 * k + 2] == Text(segs[k].text);
      assert ps[2 * k + 1] == Hole(segs[k].hole);
    }
    forall n | n in set k | 0 <= k < |segs| :: segs[k].hole ensures n in HoleNames(ps) {
      var k :| 0 <= k < |segs| && segs[k].hole == n;
      assert ps[2 * k + 1] == Hole(n);
    }
  }

  // ---------------------------------------------------------------- several replacements in a row

  /** A list of (placeholder name, value) pairs, applied first to last. */
  type Bindings = seq<(string, string)>

  predicate BindingsOk(bs: Bindings) {
    forall k :: 0 <= k < |bs| ==> PatternName(bs[k].0) && '$' !in bs[k].1
  }

  lemma BindingsOkAppend(bs: Bindings, cs: Bindings)
    requires BindingsOk(bs) && BindingsOk(cs)
    ensures BindingsOk(bs + cs)
  {
    forall k | 0 <= k < |bs + cs|
      ensures PatternName((bs + cs)[k].0) && '$' !in (bs + cs)[k].1
    {
      if k >= |bs| {
        assert (bs + cs)[k] == cs[k - |bs|];
      }
    }
  }

  /** The value the first binding for `n` gives, if any. */
  function Lookup(bs: Bindings, n: string): Option<string>
    decreases |bs|
  {
    if bs == [] then None
    else
      var earlier := Lookup(bs[..|bs| - 1], n);
      if earlier.Some? then earlier
      else if bs[|bs| - 1].0 == n then Some(bs[|bs| - 1].1)
      else None
  }

  /** The str.replace calls of the source, one per binding, in order. */
  function ReplaceAll(s: string, bs: Bindings): string
    decreases |bs|
  {
    if bs == [] then s
    else Replace(ReplaceAll(s, bs[..|bs| - 1]), Placeholder(bs[|bs| - 1].0), bs[|bs| - 1].1)
  }

  /** The first k + 1 replacements are the first k followed by the (k+1)-th. */
  lemma ReplaceAllStep(s: string, bs: Bindings, k: nat)
    requires k < |bs|
    ensures ReplaceAll(s, bs[..k + 1]) == Replace(ReplaceAll(s, bs[..k]), Placeholder(bs[k].0), bs[k].1)
  {
    assert bs[..k + 1][..k] == bs[..k];
  }

  /** Replacing with `bs + cs` is replacing with `bs`, then with `cs`. */
  lemma {:induction false} ReplaceAllAppend(s: string, bs: Bindings, cs: Bindings)
    ensures ReplaceAll(s, bs + cs) == ReplaceAll(ReplaceAll(s, bs), cs)
    decreases |cs|
  {
    if cs == [] {
      assert bs + cs == bs;
    } else {
      var init := cs[..|cs| - 1];
      ReplaceAllAppend(s, bs, init);
      assert (bs + cs)[..|bs + cs| - 1] == bs + init;
    }
  }

  /** The same replacements, done on the pieces of the template. */
  function SubstAll(ps: seq<Piece>, bs: Bindings): seq<Piece>
    decreases |bs|
  {
    if bs == [] then ps
    else Subst(SubstAll(ps, bs[..|bs| - 1]), bs[|bs| - 1].0, bs[|bs| - 1].1)
  }

  /**
   * After all the replacements a hole is filled with the value of the first
   * binding of its name; a hole whose name is bound nowhere, and every
   * text, is left exactly as it was.
   */
  lemma {:induction false} SubstAllAt(ps: seq<Piece>, bs: Bindings)
    ensures |SubstAll(ps, bs)| == |ps|
    ensures forall i :: 0 <= i < |ps| ==>
      SubstAll(ps, bs)[i] == (if ps[i].Hole? && Lookup(bs, ps[i].name).Some?
                              then Text(Lookup(bs, ps[i].name).value) else ps[i])
    decreases |bs|
  {
    if bs != [] {
      SubstAllAt(ps, bs[..|bs| - 1]);
    }
  }

  lemma {:induction false} SubstAllWellFormed(ps: seq<Piece>, bs: Bindings)
    requires WellFormed(ps) && BindingsOk(bs)
    ensures WellFormed(SubstAll(ps, bs))
    decreases |bs|
  {
    if bs != [] {
      SubstAllWellFormed(ps, bs[..|bs| - 1]);
      SubstWellFormed(SubstAll(ps, bs[..|bs| - 1]), bs[|bs| - 1].0, bs[|bs| - 1].1);
    }
  }

  /** The placeholder names the bindings mention. */
  function Names(bs: Bindings): set<string> {
    set k | 0 <= k < |bs| :: bs[k].0
  }

  /** A name is looked up in vain exactly when no binding mentions it. */
  lemma {:induction false} LookupNone(bs: Bindings, n: string)
    ensures Lookup(bs, n).None? <==> n !in Names(bs)
    decreases |bs|
  {
    if bs != [] {
      var init := bs[..|bs| - 1];
      LookupNone(init, n);
      assert Names(bs) == Names(init) + {bs[|bs| - 1].0} by {
        forall m | m in Names(bs) ensures m in Names(init) + {bs[|bs| - 1].0} {
          var k :| 0 <= k < |bs| && bs[k].0 == m;
          if k < |bs| - 1 { assert init[k] == bs[k]; }
        }
        forall m | m in Names(init) ensures m in Names(bs) {
          var k :| 0 <= k < |init| && init[k].0 == m;
          assert bs[k] == init[k];
        }
      }
    }
  }

  /** The first binding of a name decides its value. */
  lemma {:induction false} LookupAt(bs: Bindings, k: nat)
    requires k < |bs|
    requires forall j :: 0 <= j < k ==> bs[j].0 != bs[k].0
    ensures Lookup(bs, bs[k].0) == Some(bs[k].1)
    decreases |bs|
  {
    var init := bs[..|bs| - 1];
    if k < |bs| - 1 {
      assert init[k] == bs[k];
      LookupAt(init, k);
    } else {
      LookupNone(init, bs[k].0);
      assert forall j :: 0 <= j < |init| ==> init[j].0 != bs[k].0;
    }
  }

  /** The chain of str.replace calls on the rendered template fills the holes and nothing else. */
  lemma {:induction false} ReplaceAllRendered(ps: seq<Piece>, bs: Bindings)
    requires WellFormed(ps) && BindingsOk(bs)
    ensures ReplaceAll(Render(ps), bs) == Render(SubstAll(ps, bs))
    decreases |bs|
  {
    if bs != [] {
      var init := bs[..|bs| - 1];
      ReplaceAllRendered(ps, init);
      SubstAllWellFormed(ps, init);
      ReplaceRendered(SubstAll(ps, init), bs[|bs| - 1].0, bs[|bs| - 1].1);
    }
  }

  /** The holes left open are exactly those whose names no binding mentions. */
  lemma OpenHoles(ps: seq<Piece>, bs: Bindings)
    ensures HoleNames(SubstAll(ps, bs)) == set n | n in HoleNames(ps) && Lookup(bs, n).None?
  {
    SubstAllAt(ps, bs);
    var r := SubstAll(ps, bs);
    forall n | n in HoleNames(r) ensures n in HoleNames(ps) && Lookup(bs, n).None? {
      var i :| 0 <= i < |r| && r[i].Hole? && r[i].name == n;
      assert ps[i] == r[i];
    }
    forall n | n in HoleNames(ps) && Lookup(bs, n).None? ensures n in HoleNames(r) {
      var i :| 0 <= i < |ps| && ps[i].Hole? && ps[i].name == n;
      assert r[i] == ps[i];
    }
  }

  lemma {:induction false} TextsRender(ps: seq<Piece>)
    requires forall i :: 0 <= i < |ps| ==> ps[i].Text? && PieceOk(ps[i])
    ensures '$' !in Render(ps)
  {
    if ps != [] {
      TextsRender(ps[1..]);
    }
  }

  /** A well-formed template with no hole left renders to a string without '$': no placeholder remains. */
  lemma FilledRender(ps: seq<Piece>)
    requires WellFormed(ps) && HoleNames(ps) == {}
    ensures '$' !in Render(ps)
  {
    assert forall i :: 0 <= i < |ps| && ps[i].Hole? ==> ps[i].name in HoleNames(ps);
    TextsRender(ps);
  }
}

/**
 * The Python string operations the recipes rely on: `isspace`, `strip`,
 * `split(sep)`, `split()`, `upper`, `lower` and `replace`, on `string`
 * (a sequence of characters).
 */
module Strings {

  /** The characters Python's str.isspace() accepts. */
  const Whitespace: set<char> := {
    '\U{9}', '\U{a}', '\U{b}', '\U{c}', '\U{d}', '\U{1c}', '\U{1d}', '\U{1e}',
    '\U{1f}', '\U{20}', '\U{85}', '\U{a0}', '\U{1680}', '\U{2000}', '\U{2001}', '\U{2002}',
    '\U{2003}', '\U{2004}', '\U{2005}', '\U{2006}', '\U{2007}', '\U{2008}', '\U{2009}', '\U{200a}',
    '\U{2028}', '\U{2029}', '\U{202f}', '\U{205f}', '\U{3000}'
  }

  /** Python's str.isspace() for one character. */
  predicate IsSpace(c: char) {
    c in Whitespace
  }

  predicate AllSpace(s: string) {
    forall i :: 0 <= i < |s| ==> IsSpace(s[i])
  }

  predicate NoSpace(s: string) {
    forall i :: 0 <= i < |s| ==> !IsSpace(s[i])
  }

  /** Neither end of `s` is whitespace: what str.strip() leaves behind. */
  predicate IsStripped(s: string) {
    s == [] || (!IsSpace(s[0]) && !IsSpace(s[|s| - 1]))
  }

  // ---------------------------------------------------------------- strip

  /** The length of the whitespace run that starts `s`. */
  function LeadingSpaces(s: string): (n: nat)
    ensures n <= |s|
    ensures n < |s| ==> !IsSpace(s[n])
  {
    if s == [] || !IsSpace(s[0]) then 0 else 1 + LeadingSpaces(s[1..])
  }

  lemma {:induction false} LeadingSpacesAreSpace(s: string)
    ensures AllSpace(s[..LeadingSpaces(s)])
  {
    if s != [] && IsSpace(s[0]) {
      LeadingSpacesAreSpace(s[1..]);
      assert s[..LeadingSpaces(s)] == [s[0]] + s[1..][..LeadingSpaces(s[1..])];
    }
  }

  /** The length of the whitespace run that ends `s`. */
  function TrailingSpaces(s: string): (n: nat)
    ensures n <= |s|
    ensures n < |s| ==> !IsSpace(s[|s| - n - 1])
  {
    if s == [] || !IsSpace(s[|s| - 1]) then 0 else 1 + TrailingSpaces(s[..|s| - 1])
  }

  lemma {:induction false} TrailingSpacesAreSpace(s: string)
    ensures AllSpace(s[|s| - TrailingSpaces(s)..])
  {
    if s != [] && IsSpace(s[|s| - 1]) {
      var t := s[..|s| - 1];
      TrailingSpacesAreSpace(t);
      var k := TrailingSpaces(t);
      var w := s[|s| - (k + 1)..];
      forall j | 0 <= j < |w|
        ensures IsSpace(w[j])
      {
        if j < k {
          assert w[j] == t[|t| - k..][j];
        }
      }
    }
  }

  /** str.strip(): `s` without its leading and trailing whitespace. */
  function Strip(s: string): (r: string)
    ensures IsStripped(r)
  {
    var t := s[LeadingSpaces(s)..];
    t[..|t| - TrailingSpaces(t)]
  }

  /** What strip() removes is whitespace on either side. */
  lemma StripParts(s: string)
    ensures LeadingSpaces(s) + |Strip(s)| <= |s|
    ensures s == s[..LeadingSpaces(s)] + Strip(s) + s[LeadingSpaces(s) + |Strip(s)|..]
    ensures AllSpace(s[..LeadingSpaces(s)]) && AllSpace(s[LeadingSpaces(s) + |Strip(s)|..])
  {
    var n := LeadingSpaces(s);
    var t := s[n..];
    var m := TrailingSpaces(t);
    var r := t[..|t| - m];
    assert Strip(s) == r;
    var e := n + |r|;
    assert s[e..] == t[|t| - m..];
    assert AllSpace(s[..n]) by {
      LeadingSpacesAreSpace(s);
    }
    assert AllSpace(s[e..]) by {
      TrailingSpacesAreSpace(t);
    }
    assert s == s[..n] + r + s[e..] by {
      assert r == s[n..e];
      assert s[..n] + s[n..e] == s[..e];
      assert s[..e] + s[e..] == s;
    }
  }

  lemma {:induction false} LeadingSpacesAfterSpace(w: string, x: string)
    requires AllSpace(w)
    ensures LeadingSpaces(w + x) == |w| + LeadingSpaces(x)
  {
    if w != [] {
      assert (w + x)[1..] == w[1..] + x;
      LeadingSpacesAfterSpace(w[1..], x);
    } else {
      assert w + x == x;
    }
  }

  lemma {:induction false} TrailingSpacesBeforeSpace(x: string, w: string)
    requires AllSpace(w)
    ensures TrailingSpaces(x + w) == TrailingSpaces(x) + |w|
  {
    if w != [] {
      assert (x + w)[..|x + w| - 1] == x + w[..|w| - 1];
      TrailingSpacesBeforeSpace(x, w[..|w| - 1]);
    } else {
      assert x + w == x;
    }
  }

  /** Stripping undoes padding with whitespace on either side. */
  lemma StripPadded(w1: string, x: string, w2: string)
    requires AllSpace(w1) && AllSpace(w2) && IsStripped(x)
    ensures Strip(w1 + x + w2) == x
  {
    var s := w1 + x + w2;
    assert s == w1 + (x + w2);
    LeadingSpacesAfterSpace(w1, x + w2);
    if x == [] {
      assert x + w2 == w2;
      assert LeadingSpaces(w2) == |w2| by {
        assert w2 == w2 + [];
        LeadingSpacesAfterSpace(w2, []);
      }
      assert s[LeadingSpaces(s)..] == [];
    } else {
      assert LeadingSpaces(x + w2) == 0;
      assert s[LeadingSpaces(s)..] == x + w2;
      TrailingSpacesBeforeSpace(x, w2);
      assert TrailingSpaces(x) == 0;
      assert (x + w2)[..|x + w2| - |w2|] == x;
    }
  }

  /** Stripping adds no character. */
  lemma StripKeeps(s: string, c: char)
    requires c !in s
    ensures c !in Strip(s)
  {
    StripParts(s);
  }

  // ---------------------------------------------------------------- split(sep) and join

  /** The index of the first `c` in `s`, or |s| when there is none. */
  function IndexOf(s: string, c: char): (i: nat)
    ensures i <= |s|
    ensures i < |s| ==> s[i] == c
    ensures forall j :: 0 <= j < i ==> s[j] != c
  {
    if s == [] then 0 else if s[0] == c then 0 else 1 + IndexOf(s[1..], c)
  }

  /** sep.join(parts) for a one-character separator. */
  function Join(parts: seq<string>, sep: char): string {
    if |parts| == 0 then ""
    else if |parts| == 1 then parts[0]
    else parts[0] + [sep] + Join(parts[1..], sep)
  }

  /** str.split(sep) for a one-character separator: never empty, and no piece holds the separator. */
  function Split(s: string, sep: char): (parts: seq<string>)
    ensures |parts| >= 1
    ensures forall k :: 0 <= k < |parts| ==> sep !in parts[k]
    decreases |s|
  {
    var i := IndexOf(s, sep);
    if i == |s| then [s]
    else [s[..i]] + Split(s[i + 1..], sep)
  }

  /** Joining the pieces of a split gives the string back. */
  lemma {:induction false} JoinSplit(s: string, sep: char)
    ensures Join(Split(s, sep), sep) == s
    decreases |s|
  {
    var i := IndexOf(s, sep);
    if i < |s| {
      var rest := Split(s[i + 1..], sep);
      JoinSplit(s[i + 1..], sep);
      var parts := [s[..i]] + rest;
      assert Split(s, sep) == parts;
      assert parts[0] == s[..i] && parts[1..] == rest;
      assert Join(parts, sep) == s[..i] + [sep] + Join(rest, sep);
      assert s == s[..i] + [sep] + s[i + 1..];
    }
  }

  /** A slice holds no character the whole does not. */
  lemma SliceKeeps(s: string, c: char, a: nat, b: nat)
    requires c !in s && a <= b <= |s|
    ensures c !in s[a..b]
  {
    forall j | 0 <= j < b - a ensures s[a..b][j] != c {
      assert s[a..b][j] == s[a + j];
    }
  }

  /** No piece of a split holds a character the string does not. */
  lemma {:induction false} SplitKeeps(s: string, sep: char, c: char)
    requires c !in s
    ensures forall k :: 0 <= k < |Split(s, sep)| ==> c !in Split(s, sep)[k]
    decreases |s|
  {
    var i := IndexOf(s, sep);
    if i < |s| {
      SplitKeeps(s[i + 1..], sep, c);
      assert c !in s[..i];
      var rest := Split(s[i + 1..], sep);
      assert Split(s, sep) == [s[..i]] + rest;
    }
  }

  /** Splitting a join of separator-free pieces gives the pieces back. */
  lemma {:induction false} SplitJoin(parts: seq<string>, sep: char)
    requires |parts| >= 1
    requires forall k :: 0 <= k < |parts| ==> sep !in parts[k]
    ensures Split(Join(parts, sep), sep) == parts
  {
    var s := Join(parts, sep);
    if |parts| == 1 {
      assert IndexOf(s, sep) == |s|;
    } else {
      var tail := Join(parts[1..], sep);
      assert s == parts[0] + [sep] + tail;
      assert IndexOf(s, sep) == |parts[0]| by {
        assert forall j :: 0 <= j < |parts[0]| ==> s[j] == parts[0][j];
        assert s[|parts[0]|] == sep;
      }
      assert s[..|parts[0]|] == parts[0];
      assert s[|parts[0]| + 1..] == tail;
      SplitJoin(parts[1..], sep);
    }
  }

  // ---------------------------------------------------------------- split()

  /** The index of the first whitespace character of `s`, or |s|. */
  function IndexOfSpace(s: string): (i: nat)
    ensures i <= |s| && NoSpace(s[..i])
    ensures i < |s| ==> IsSpace(s[i])
  {
    if s == [] || IsSpace(s[0]) then 0 else 1 + IndexOfSpace(s[1..])
  }

  /** str.split() with no argument: the maximal runs of non-whitespace characters. */
  function Words(s: string): (ws: seq<string>)
    ensures forall k :: 0 <= k < |ws| ==> ws[k] != [] && NoSpace(ws[k])
    decreases |s|
  {
    var t := s[LeadingSpaces(s)..];
    if t == [] then []
    else
      var i := IndexOfSpace(t);
      [t[..i]] + Words(t[i..])
  }

  /** The characters of `s` that are not whitespace, in order. */
  function NonSpace(s: string): string {
    if s == [] then [] else (if IsSpace(s[0]) then [] else [s[0]]) + NonSpace(s[1..])
  }

  function Concat(ws: seq<string>): string {
    if ws == [] then [] else ws[0] + Concat(ws[1..])
  }

  lemma {:induction false} NonSpaceAppend(a: string, b: string)
    ensures NonSpace(a + b) == NonSpace(a) + NonSpace(b)
  {
    if a != [] {
      assert (a + b)[1..] == a[1..] + b;
      NonSpaceAppend(a[1..], b);
    } else {
      assert a + b == b;
    }
  }

  lemma {:induction false} NonSpaceOfSpace(w: string)
    requires AllSpace(w)
    ensures NonSpace(w) == []
  {
    if w != [] { NonSpaceOfSpace(w[1..]); }
  }

  lemma {:induction false} NonSpaceOfWord(w: string)
    requires NoSpace(w)
    ensures NonSpace(w) == w
  {
    if w != [] { NonSpaceOfWord(w[1..]); }
  }

  /** The words of `s`, run together, are exactly its non-whitespace characters. */
  lemma {:induction false} WordsCoverNonSpace(s: string)
    ensures Concat(Words(s)) == NonSpace(s)
    decreases |s|
  {
    var k := LeadingSpaces(s);
    var t := s[k..];
    assert s == s[..k] + t;
    NonSpaceAppend(s[..k], t);
    LeadingSpacesAreSpace(s);
    NonSpaceOfSpace(s[..k]);
    if t != [] {
      var i := IndexOfSpace(t);
      assert t == t[..i] + t[i..];
      NonSpaceAppend(t[..i], t[i..]);
      NonSpaceOfWord(t[..i]);
      WordsCoverNonSpace(t[i..]);
      assert Words(s) == [t[..i]] + Words(t[i..]);
      assert Concat(Words(s)) == t[..i] + Concat(Words(t[i..]));
    }
  }

  /** No word of `s` holds a character `s` does not. */
  lemma {:induction false} WordsKeep(s: string, c: char)
    requires c !in s
    ensures forall k :: 0 <= k < |Words(s)| ==> c !in Words(s)[k]
    decreases |s|
  {
    var n := LeadingSpaces(s);
    var t := s[n..];
    if t != [] {
      var i := IndexOfSpace(t);
      assert c !in t by { SliceKeeps(s, c, n, |s|); assert s[n..|s|] == t; }
      assert c !in t[..i] by { SliceKeeps(t, c, 0, i); assert t[0..i] == t[..i]; }
      assert c !in t[i..] by { SliceKeeps(t, c, i, |t|); assert t[i..|t|] == t[i..]; }
      WordsKeep(t[i..], c);
      ConsKeeps(t[..i], Words(t[i..]), c);
    }
  }

  lemma ConsKeeps(w: string, ws: seq<string>, c: char)
    requires c !in w && forall k :: 0 <= k < |ws| ==> c !in ws[k]
    ensures forall k :: 0 <= k < |[w] + ws| ==> c !in ([w] + ws)[k]
  {
    forall k | 0 <= k < |[w] + ws| ensures c !in ([w] + ws)[k] {
      if k > 0 {
        assert ([w] + ws)[k] == ws[k - 1];
      }
    }
  }

  // ---------------------------------------------------------------- upper and lower

  function UpperChar(c: char): char {
    if 'a' <= c <= 'z' then (c as int - 32) as char else c
  }

  function LowerChar(c: char): char {
    if 'A' <= c <= 'Z' then (c as int + 32) as char else c
  }

  /** str.upper() on ASCII letters. */
  function Upper(s: string): string {
    seq(|s|, i requires 0 <= i < |s| => UpperChar(s[i]))
  }

  /** str.lower() on ASCII letters. */
  function Lower(s: string): string {
    seq(|s|, i requires 0 <= i < |s| => LowerChar(s[i]))
  }

  /** Upper-casing leaves no lower-case letter and adds or removes no '$'. */
  lemma UpperCases(s: string)
    ensures |Upper(s)| == |s|
    ensures forall i :: 0 <= i < |s| ==> !('a' <= Upper(s)[i] <= 'z')
    ensures '$' in Upper(s) <==> '$' in s
  {
    if '$' in Upper(s) {
      var i :| 0 <= i < |s| && Upper(s)[i] == '$';
      assert s[i] == '$';
    }
    if '$' in s {
      var i :| 0 <= i < |s| && s[i] == '$';
      assert Upper(s)[i] == '$';
    }
  }

  /** `x.lower() == 'on'` holds for exactly the four spellings of "on". */
  lemma LowerIsOn(x: string)
    ensures Lower(x) == "on" <==> x in {"on", "oN", "On", "ON"}
  {
    if Lower(x) == "on" {
      assert |x| == 2;
      assert Lower(x)[0] == LowerChar(x[0]) && Lower(x)[1] == LowerChar(x[1]);
      assert LowerChar(x[0]) == 'o' && LowerChar(x[1]) == 'n';
      assert x[0] == 'o' || x[0] == 'O';
      assert x[1] == 'n' || x[1] == 'N';
      assert x == [x[0], x[1]];
    }
  }

  // ---------------------------------------------------------------- replace

  /** `pat` occurs in `s` starting at index `i`. */
  predicate OccursAt(s: string, pat: string, i: int) {
    0 <= i && i + |pat| <= |s| && s[i..i + |pat|] == pat
  }

  /**
   * str.replace(pat, rep): every occurrence of a non-empty `pat`, found left
   * to right without overlap, replaced by `rep`.
   */
  function Replace(s: string, pat: string, rep: string): string
    requires pat != []
    decreases |s|
  {
    if |s| < |pat| then s
    else if s[..|pat|] == pat then rep + Replace(s[|pat|..], pat, rep)
    else [s[0]] + Replace(s[1..], pat, rep)
  }

  /** Where the pattern does not start, str.replace keeps the first character and goes on with the rest. */
  lemma ReplaceStep(s: string, pat: string, rep: string)
    requires pat != [] && s != [] && !OccursAt(s, pat, 0)
    ensures Replace(s, pat, rep) == [s[0]] + Replace(s[1..], pat, rep)
  {
    if |s| < |pat| {
      assert Replace(s[1..], pat, rep) == s[1..];
      assert [s[0]] + s[1..] == s;
    } else {
      assert s[..|pat|] != pat;
    }
  }

  /** Replacing a pattern that does not occur changes nothing. */
  lemma {:induction false} ReplaceAbsent(s: string, pat: string, rep: string)
    requires pat != []
    requires forall i :: !OccursAt(s, pat, i)
    ensures Replace(s, pat, rep) == s
    decreases |s|
  {
    if |s| >= |pat| {
      assert !OccursAt(s, pat, 0);
      forall i | OccursAt(s[1..], pat, i) ensures OccursAt(s, pat, i + 1) {
        assert s[i + 1..i + 1 + |pat|] == s[1..][i..i + |pat|];
      }
      ReplaceAbsent(s[1..], pat, rep);
    }
  }

  /** A prefix free of the pattern's first character passes through replace unchanged. */
  lemma {:induction false} ReplaceSkipsPrefix(t: string, x: string, pat: string, rep: string)
    requires pat != [] && pat[0] !in t
    ensures Replace(t + x, pat, rep) == t + Replace(x, pat, rep)
  {
    if t != [] {
      var s := t + x;
      assert s[1..] == t[1..] + x;
      ReplaceSkipsPrefix(t[1..], x, pat, rep);
      if |s| < |pat| {
        assert |x| < |pat|;
      } else {
        assert s[..|pat|][0] == t[0];
      }
    } else {
      assert t + x == x;
    }
  }
}

/**
 * The engines of the application stage. An engine string such as
 * "simd=avx2:rdtscp=on" is parsed into a dictionary (`_parse_engine`), and
 * each engine gets its own CMake build whose options are the stage-wide
 * options with the engine's placeholders filled in (`engines`).
 */
module Engines {
  import opened Outcomes
  import opened Strings
  import opened Placeholders
  import opened Formats
  import opened Inputs
  import opened Instructions
  import opened GromacsOptions

  // ---------------------------------------------------------------- the parsed dictionary

  /** A parsed engine: the dictionary `_parse_engine` fills, as its (key, value) pairs in insertion order. */
  type EngineArgs = seq<(string, string)>

  predicate DistinctKeys(d: EngineArgs) {
    forall i, j :: 0 <= i < j < |d| ==> d[i].0 != d[j].0
  }

  function KeySet(d: EngineArgs): set<string> {
    set i | 0 <= i < |d| :: d[i].0
  }

  /** The position of `key` in `d`, or |d| when it is absent. */
  function IndexOfKey(d: EngineArgs, key: string): (k: nat)
    ensures k <= |d|
    ensures k < |d| ==> d[k].0 == key
    ensures forall j :: 0 <= j < k ==> d[j].0 != key
  {
    if d == [] then 0 else if d[0].0 == key then 0 else 1 + IndexOfKey(d[1..], key)
  }

  /** `d.get(key)` */
  function Find(d: EngineArgs, key: string): (v: Option<string>)
    ensures v.Some? <==> key in KeySet(d)
  {
    var k := IndexOfKey(d, key);
    if k < |d| then Some(d[k].1) else None
  }

  /** `d[key]`: a KeyError when the key is absent. */
  function Item(d: EngineArgs, key: string): (r: Result<string>)
    ensures r.Ok? <==> key in KeySet(d)
    ensures r.Ok? ==> Find(d, key) == Some(r.value)
    ensures r.Err? ==> r.error == MissingKey(key)
  {
    match Find(d, key)
    case None => Err(MissingKey(key))
    case Some(v) => Ok(v)
  }

  /** `d[key] = value`: a new key goes last; a key already there keeps its place and takes the new value. */
  function Put(d: EngineArgs, key: string, value: string): (r: EngineArgs)
    ensures DistinctKeys(d) ==> DistinctKeys(r)
  {
    var k := IndexOfKey(d, key);
    if k < |d| then d[k := (key, value)] else d + [(key, value)]
  }

  /** The keys after `d[key] = value` are the keys before and `key`. */
  lemma PutKeys(d: EngineArgs, key: string, value: string)
    ensures KeySet(Put(d, key, value)) == KeySet(d) + {key}
  {
    var r := Put(d, key, value);
    var k := IndexOfKey(d, key);
    forall x | x in KeySet(d) ensures x in KeySet(r) {
      var i :| 0 <= i < |d| && d[i].0 == x;
      assert r[i].0 == x;
    }
    assert r[k].0 == key;
  }

  /** Storing under a key and reading it back gives the value; every other key reads as before. */
  lemma PutFind(d: EngineArgs, key: string, value: string, other: string)
    ensures Find(Put(d, key, value), key) == Some(value)
    ensures other != key ==> Find(Put(d, key, value), other) == Find(d, other)
  {
    var r := Put(d, key, value);
    var k := IndexOfKey(d, key);
    assert IndexOfKey(r, key) == k by {
      assert r[k].0 == key;
      forall j | 0 <= j < k ensures r[j].0 != key {
        assert r[j] == d[j];
      }
    }
    var ko := IndexOfKey(d, other);
    if other != key && ko < |d| {
      assert r[ko] == d[ko];
      assert IndexOfKey(r, other) == ko by {
        forall j | 0 <= j < ko ensures r[j].0 != other {
          assert r[j] == d[j] || r[j] == (key, value);
        }
      }
    } else if other != key {
      PutKeys(d, key, value);
    }
  }

  // ---------------------------------------------------------------- _parse_engine

  /**
   * One `key=value` argument (already stripped): exactly one '=', both
   * sides stripped, and a `simd` value translated by the SIMD table.
   */
  function ParseArg(simdMapper: map<string, string>, arg: string): (r: Result<(string, string)>)
    ensures r.Ok? ==> IsStripped(r.value.0)
  {
    var parts := Split(arg, '=');
    if |parts| != 2 then Err(MalformedEngineArgument(arg))
    else
      var key, value := Strip(parts[0]), Strip(parts[1]);
      if key != "simd" then Ok((key, value))
      else if value in simdMapper then Ok((key, simdMapper[value]))
      else Err(UnknownSimd(value))
  }

  /** The dictionary filled from the arguments, first to last; the first bad argument raises. */
  function FillEngineArgs(simdMapper: map<string, string>, pieces: seq<string>): (r: Result<EngineArgs>)
    ensures r.Ok? ==> DistinctKeys(r.value)
    decreases |pieces|
  {
    if pieces == [] then Ok([])
    else
      var d :- FillEngineArgs(simdMapper, pieces[..|pieces| - 1]);
      var kv :- ParseArg(simdMapper, Strip(pieces[|pieces| - 1]));
      Ok(Put(d, kv.0, kv.1))
  }

  /** `_parse_engine`: None for the empty string, otherwise the dictionary of the ':'-separated arguments. */
  function ParseEngineSpec(simdMapper: map<string, string>, engine: string): Result<Option<EngineArgs>> {
    if engine == "" then Ok(None)
    else
      var d :- FillEngineArgs(simdMapper, Split(engine, ':'));
      Ok(Some(d))
  }

  /** Once an argument has raised, the arguments after it change nothing. */
  lemma {:induction false} FillStops(simdMapper: map<string, string>, pieces: seq<string>, i: nat)
    requires i <= |pieces| && FillEngineArgs(simdMapper, pieces[..i]).Err?
    ensures FillEngineArgs(simdMapper, pieces) == FillEngineArgs(simdMapper, pieces[..i])
    decreases |pieces|
  {
    if i < |pieces| {
      var init := pieces[..|pieces| - 1];
      assert init[..i] == pieces[..i];
      FillStops(simdMapper, init, i);
    } else {
      assert pieces[..i] == pieces;
    }
  }

  /** One more argument: the dictionary so far with the argument stored, or the argument's error. */
  lemma FillNext(simdMapper: map<string, string>, pieces: seq<string>, i: nat)
    requires i < |pieces| && FillEngineArgs(simdMapper, pieces[..i]).Ok?
    ensures var d, kv := FillEngineArgs(simdMapper, pieces[..i]).value, ParseArg(simdMapper, Strip(pieces[i]));
      FillEngineArgs(simdMapper, pieces[..i + 1]) == if kv.Err? then Err(kv.error) else Ok(Put(d, kv.value.0, kv.value.1))
  {
    assert pieces[..i + 1][..i] == pieces[..i];
  }

  /** `_parse_engine` as the source writes it: a loop that fills a dictionary. */
  method ParseEngine(simdMapper: map<string, string>, engine: string) returns (r: Result<Option<EngineArgs>>)
    ensures r == ParseEngineSpec(simdMapper, engine)
  {
    if engine == "" {
      return Ok(None);
    }
    var pieces := Split(engine, ':');
    var d: EngineArgs := [];
    var i := 0;
    while i < |pieces|
      invariant i <= |pieces|
      invariant FillEngineArgs(simdMapper, pieces[..i]) == Ok(d)
    {
      var kv := ParseArg(simdMapper, Strip(pieces[i]));
      FillNext(simdMapper, pieces, i);
      if kv.Err? {
        FillStops(simdMapper, pieces, i + 1);
        return Err(kv.error);
      }
      d := Put(d, kv.value.0, kv.value.1);
      i := i + 1;
    }
    assert pieces[..i] == pieces;
    return Ok(Some(d));
  }

  // ---------------------------------------------------------------- what _parse_engine accepts

  function Count(s: string, c: char): nat {
    if s == [] then 0 else (if s[0] == c then 1 else 0) + Count(s[1..], c)
  }

  lemma {:induction false} CountAppend(a: string, b: string, c: char)
    ensures Count(a + b, c) == Count(a, c) + Count(b, c)
  {
    if a == [] {
      assert a + b == b;
    } else {
      assert (a + b)[1..] == a[1..] + b;
      CountAppend(a[1..], b, c);
    }
  }

  lemma {:induction false} CountAbsent(s: string, c: char)
    requires c !in s
    ensures Count(s, c) == 0
  {
    if s != [] { CountAbsent(s[1..], c); }
  }

  /** str.split(c) gives one piece more than there are separators. */
  lemma {:induction false} SplitCount(s: string, c: char)
    ensures |Split(s, c)| == Count(s, c) + 1
    decreases |s|
  {
    var i := IndexOf(s, c);
    assert s == s[..i] + s[i..];
    CountAppend(s[..i], s[i..], c);
    CountAbsent(s[..i], c);
    if i < |s| {
      assert s[i..] == [c] + s[i + 1..];
      CountAppend([c], s[i + 1..], c);
      SplitCount(s[i + 1..], c);
    }
  }

  /** Stripping whitespace removes no separator. */
  lemma StripCount(s: string, c: char)
    requires !IsSpace(c)
    ensures Count(Strip(s), c) == Count(s, c)
  {
    StripParts(s);
    var l := LeadingSpaces(s);
    var r := Strip(s);
    var a, b := s[..l], s[l + |r|..];
    assert c !in a && c !in b;
    CountAppend(a, r, c);
    CountAppend(a + r, b, c);
    CountAbsent(a, c);
    CountAbsent(b, c);
  }

  /** A key=value argument whose key is simd names a SIMD level the table knows. */
  predicate SimdKnown(simdMapper: map<string, string>, arg: string) {
    var parts := Split(arg, '=');
    |parts| == 2 && Strip(parts[0]) == "simd" ==> Strip(parts[1]) in simdMapper
  }

  /** An argument `_parse_engine` accepts: exactly one '=', and a known SIMD level if the key is simd. */
  predicate ArgOk(simdMapper: map<string, string>, piece: string) {
    Count(piece, '=') == 1 && SimdKnown(simdMapper, Strip(piece))
  }

  lemma ParseArgOk(simdMapper: map<string, string>, piece: string)
    ensures ParseArg(simdMapper, Strip(piece)).Ok? <==> ArgOk(simdMapper, piece)
  {
    StripCount(piece, '=');
    SplitCount(Strip(piece), '=');
  }

  lemma FillStep(simdMapper: map<string, string>, pieces: seq<string>)
    requires pieces != []
    ensures FillEngineArgs(simdMapper, pieces).Ok? <==>
            FillEngineArgs(simdMapper, pieces[..|pieces| - 1]).Ok? && ParseArg(simdMapper, Strip(pieces[|pieces| - 1])).Ok?
  {
  }

  /** Every one of `pieces` is an argument `_parse_engine` accepts (checked from the last). */
  predicate AllArgsOk(simdMapper: map<string, string>, pieces: seq<string>)
    decreases |pieces|
  {
    pieces == [] || (AllArgsOk(simdMapper, pieces[..|pieces| - 1]) && ArgOk(simdMapper, pieces[|pieces| - 1]))
  }

  /** Every one of `pieces` is an accepted argument. */
  predicate EveryArgOk(simdMapper: map<string, string>, pieces: seq<string>) {
    forall i :: 0 <= i < |pieces| ==> ArgOk(simdMapper, pieces[i])
  }

  lemma {:induction false} AllArgsOkEach(simdMapper: map<string, string>, pieces: seq<string>)
    ensures AllArgsOk(simdMapper, pieces) <==> EveryArgOk(simdMapper, pieces)
    decreases |pieces|
  {
    if pieces != [] {
      var init := pieces[..|pieces| - 1];
      AllArgsOkEach(simdMapper, init);
      assert forall i :: 0 <= i < |init| ==> init[i] == pieces[i];
    }
  }

  /** The dictionary is filled exactly when every argument is accepted. */
  lemma {:induction false} FillOk(simdMapper: map<string, string>, pieces: seq<string>)
    ensures FillEngineArgs(simdMapper, pieces).Ok? <==> AllArgsOk(simdMapper, pieces)
    decreases |pieces|
  {
    if pieces != [] {
      FillStep(simdMapper, pieces);
      ParseArgOk(simdMapper, pieces[|pieces| - 1]);
      FillOk(simdMapper, pieces[..|pieces| - 1]);
    }
  }

  /**
   * A non-empty engine string parses exactly when every ':'-separated
   * argument has one '=' and names a known SIMD level if its key is simd.
   */
  lemma ParseEngineAccepts(simdMapper: map<string, string>, engine: string)
    requires engine != ""
    ensures ParseEngineSpec(simdMapper, engine).Ok? <==> EveryArgOk(simdMapper, Split(engine, ':'))
  {
    var pieces := Split(engine, ':');
    FillOk(simdMapper, pieces);
    AllArgsOkEach(simdMapper, pieces);
  }

  /** `_parse_engine` returns None exactly for the empty string. */
  lemma ParseEngineNone(simdMapper: map<string, string>, engine: string)
    ensures ParseEngineSpec(simdMapper, engine) == Ok(None) <==> engine == ""
  {
  }

  // ---------------------------------------------------------------- one engine's options

  /** The value an engine puts in for its key: the SIMD name as it is, every other value upper-cased. */
  function CaseValue(key: string, value: string): string {
    if key == "simd" then value else Upper(value)
  }

  /** The replacements the `for key in parsed_engine` loop makes, in the dictionary's order. */
  function CaseBindings(d: EngineArgs): Bindings {
    seq(|d|, k requires 0 <= k < |d| => (d[k].0, CaseValue(d[k].0, d[k].1)))
  }

  /** Both suffix placeholders first, then every key of the engine. */
  function EngineBindings(suffix: string, d: EngineArgs): Bindings {
    [("bin_suffix", suffix), ("libs_suffix", suffix)] + CaseBindings(d)
  }

  const SuffixHoles: set<string> := {"bin_suffix", "libs_suffix"}

  /** The per-engine options: the stage-wide options with the engine's placeholders replaced. */
  function ExpandEngine(opts: string, suffix: string, d: EngineArgs): string {
    ReplaceAll(opts, EngineBindings(suffix, d))
  }

  /** An engine whose keys and values can be put into the options as the source means to. */
  predicate Substitutable(d: EngineArgs) {
    forall k :: 0 <= k < |d| ==> PatternName(d[k].0) && '$' !in d[k].1
  }

  lemma EngineBindingsNames(suffix: string, d: EngineArgs)
    ensures Names(EngineBindings(suffix, d)) == SuffixHoles + KeySet(d)
  {
    var eb := EngineBindings(suffix, d);
    forall n | n in Names(eb) ensures n in SuffixHoles + KeySet(d) {
      var k :| 0 <= k < |eb| && eb[k].0 == n;
      if k >= 2 { assert d[k - 2].0 == n; }
    }
    forall n | n in SuffixHoles + KeySet(d) ensures n in Names(eb) {
      if n !in SuffixHoles {
        var k :| 0 <= k < |d| && d[k].0 == n;
        assert eb[k + 2].0 == n;
      } else {
        assert eb[0].0 == "bin_suffix" && eb[1].0 == "libs_suffix";
      }
    }
  }

  lemma EngineBindingsOk(suffix: string, d: EngineArgs)
    requires Substitutable(d) && '$' !in suffix
    ensures BindingsOk(EngineBindings(suffix, d))
  {
    var eb := EngineBindings(suffix, d);
    forall k | 0 <= k < |eb| ensures PatternName(eb[k].0) && '$' !in eb[k].1 {
      if k >= 2 {
        UpperCases(d[k - 2].1);
      } else {
        assert PatternName(eb[k].0);
      }
    }
  }

  /** The suffix placeholders take the suffix; each other key of the engine takes its (cased) value. */
  lemma EngineBindingsLookup(suffix: string, d: EngineArgs)
    requires DistinctKeys(d)
    ensures forall n :: n in SuffixHoles ==> Lookup(EngineBindings(suffix, d), n) == Some(suffix)
    ensures forall k :: 0 <= k < |d| && d[k].0 !in SuffixHoles ==>
              Lookup(EngineBindings(suffix, d), d[k].0) == Some(CaseValue(d[k].0, d[k].1))
  {
    var eb := EngineBindings(suffix, d);
    assert eb[0] == ("bin_suffix", suffix) && eb[1] == ("libs_suffix", suffix);
    LookupAt(eb, 0);
    LookupAt(eb, 1);
    forall k | 0 <= k < |d| && d[k].0 !in SuffixHoles
      ensures Lookup(eb, d[k].0) == Some(CaseValue(d[k].0, d[k].1))
    {
      EngineKeyLookup(suffix, d, k);
    }
  }

  lemma EngineKeyLookup(suffix: string, d: EngineArgs, k: nat)
    requires DistinctKeys(d) && k < |d| && d[k].0 !in SuffixHoles
    ensures Lookup(EngineBindings(suffix, d), d[k].0) == Some(CaseValue(d[k].0, d[k].1))
  {
    var eb := EngineBindings(suffix, d);
    assert eb[k + 2] == (d[k].0, CaseValue(d[k].0, d[k].1));
    forall j | 0 <= j < k + 2 ensures eb[j].0 != eb[k + 2].0 {
      if j >= 2 { assert eb[j].0 == d[j - 2].0; }
    }
    LookupAt(eb, k + 2);
  }

  /**
   * Expanding a well-formed options string: the result is the options with
   * each engine placeholder replaced by its value (the suffix for both
   * suffix placeholders, the SIMD name as it is, every other value
   * upper-cased), the text between placeholders untouched, and open only
   * the placeholders that neither the suffixes nor the engine's keys name.
   */
  lemma ExpandEngineRendered(ps: seq<Piece>, suffix: string, d: EngineArgs)
    requires WellFormed(ps) && '$' !in suffix && DistinctKeys(d) && Substitutable(d)
    ensures var r := SubstAll(ps, EngineBindings(suffix, d));
      && ExpandEngine(Render(ps), suffix, d) == Render(r)
      && WellFormed(r)
      && HoleNames(r) == HoleNames(ps) - (SuffixHoles + KeySet(d))
      && |r| == |ps|
      && (forall i :: 0 <= i < |ps| && ps[i].Text? ==> r[i] == ps[i])
      && (forall i :: 0 <= i < |ps| && ps[i].Hole? && ps[i].name in SuffixHoles ==> r[i] == Text(suffix))
      && (forall i, k :: 0 <= i < |ps| && 0 <= k < |d| && ps[i] == Hole(d[k].0) && d[k].0 !in SuffixHoles ==>
            r[i] == Text(CaseValue(d[k].0, d[k].1)))
  {
    var eb := EngineBindings(suffix, d);
    EngineBindingsOk(suffix, d);
    ReplaceAllRendered(ps, eb);
    SubstAllWellFormed(ps, eb);
    SubstAllAt(ps, eb);
    EngineBindingsLookup(suffix, d);
    OpenHoles(ps, eb);
    EngineBindingsNames(suffix, d);
    forall n ensures Lookup(eb, n).None? <==> n !in SuffixHoles + KeySet(d) {
      LookupNone(eb, n);
    }
  }

  /** The expansion as the source writes it: both suffixes, then a loop over the engine's keys. */
  method ExpandOptions(opts: string, suffix: string, d: EngineArgs) returns (r: string)
    ensures r == ExpandEngine(opts, suffix, d)
  {
    r := Replace(opts, Placeholder("bin_suffix"), suffix);
    r := Replace(r, Placeholder("libs_suffix"), suffix);
    ExpandSuffixes(opts, suffix, d);
    for i := 0 to |d|
      invariant r == ExpandEngine(opts, suffix, d[..i])
    {
      var key := d[i].0;
      var value := if key == "simd" then d[i].1 else Upper(d[i].1);
      ExpandNext(opts, suffix, d, i);
      r := Replace(r, Placeholder(key), value);
    }
    assert d[..|d|] == d;
  }

  /** Before any key: both suffix placeholders replaced, the binary suffix first. */
  lemma ExpandSuffixes(opts: string, suffix: string, d: EngineArgs)
    ensures ExpandEngine(opts, suffix, d[..0])
         == Replace(Replace(opts, Placeholder("bin_suffix"), suffix), Placeholder("libs_suffix"), suffix)
  {
    var eb := EngineBindings(suffix, d[..0]);
    assert eb == [("bin_suffix", suffix), ("libs_suffix", suffix)];
    assert eb[..1] == [("bin_suffix", suffix)] && eb[..1][..0] == [];
    assert ReplaceAll(opts, eb[..1]) == Replace(opts, Placeholder("bin_suffix"), suffix);
  }

  /** One more key: its placeholder replaced by its (cased) value. */
  lemma ExpandNext(opts: string, suffix: string, d: EngineArgs, i: nat)
    requires i < |d|
    ensures ExpandEngine(opts, suffix, d[..i + 1])
         == Replace(ExpandEngine(opts, suffix, d[..i]), Placeholder(d[i].0), CaseValue(d[i].0, d[i].1))
  {
    var eb := EngineBindings(suffix, d[..i + 1]);
    assert eb[..|eb| - 1] == EngineBindings(suffix, d[..i]);
    assert eb[|eb| - 1] == (d[i].0, CaseValue(d[i].0, d[i].1));
  }

  // ---------------------------------------------------------------- writing an engine string back

  /** The argument `key=value`, with the blank run `pad` around both sides of each. */
  function ArgString(pad: string, key: string, value: string): string {
    pad + key + pad + "=" + pad + value + pad
  }

  /** The engine string of a dictionary: its arguments in order, joined by ':'. */
  function EngineString(d: EngineArgs, pad: string): string {
    Join(ArgStrings(d, pad), ':')
  }

  /** The dictionary as `_parse_engine` stores it: the simd value translated by the table. */
  function MapSimd(simdMapper: map<string, string>, d: EngineArgs): EngineArgs
    requires forall k :: 0 <= k < |d| && d[k].0 == "simd" ==> d[k].1 in simdMapper
  {
    seq(|d|, k requires 0 <= k < |d| => (d[k].0, if d[k].0 == "simd" then simdMapper[d[k].1] else d[k].1))
  }

  /** The arguments of the engine string of `d`. */
  function ArgStrings(d: EngineArgs, pad: string): seq<string> {
    seq(|d|, k requires 0 <= k < |d| => ArgString(pad, d[k].0, d[k].1))
  }

  /** A key and a value that can be written as an argument and read back. */
  predicate WritableArg(simdMapper: map<string, string>, key: string, value: string) {
    && key != [] && value != [] && IsStripped(key) && IsStripped(value)
    && ':' !in key && ':' !in value && '=' !in key && '=' !in value
    && (key == "simd" ==> value in simdMapper)
  }

  lemma MapSimdLast(simdMapper: map<string, string>, d: EngineArgs)
    requires d != [] && forall k :: 0 <= k < |d| && d[k].0 == "simd" ==> d[k].1 in simdMapper
    ensures var n := |d| - 1;
      MapSimd(simdMapper, d) == MapSimd(simdMapper, d[..n])
        + [(d[n].0, if d[n].0 == "simd" then simdMapper[d[n].1] else d[n].1)]
  {
    var n := |d| - 1;
    var a, b := MapSimd(simdMapper, d), MapSimd(simdMapper, d[..n]);
    assert |a| == |b| + 1;
    forall k | 0 <= k < n ensures a[k] == b[k] {
      assert d[..n][k] == d[k];
    }
  }

  /** A dictionary that can be written as an engine string and read back. */
  predicate Writable(simdMapper: map<string, string>, d: EngineArgs) {
    DistinctKeys(d) && forall k :: 0 <= k < |d| ==> WritableArg(simdMapper, d[k].0, d[k].1)
  }

  /** Storing a new key appends it. */
  lemma PutNew(d: EngineArgs, key: string, value: string)
    requires key !in KeySet(d)
    ensures Put(d, key, value) == d + [(key, value)]
  {
    assert forall j :: 0 <= j < |d| ==> d[j].0 in KeySet(d);
  }

  /** The blanks around an argument are stripped away. */
  lemma StripArgString(pad: string, key: string, value: string)
    requires AllSpace(pad) && key != [] && value != [] && IsStripped(key) && IsStripped(value)
    ensures Strip(ArgString(pad, key, value)) == key + pad + "=" + pad + value
  {
    var x := key + pad + "=" + pad + value;
    assert ArgString(pad, key, value) == pad + x + pad;
    assert x[0] == key[0] && x[|x| - 1] == value[|value| - 1];
    StripPadded(pad, x, pad);
  }

  /** The stripped argument splits at its one '=' into the padded key and the padded value. */
  lemma SplitArg(pad: string, key: string, value: string)
    requires AllSpace(pad) && '=' !in key && '=' !in value
    ensures Split(key + pad + "=" + pad + value, '=') == [key + pad, pad + value]
  {
    assert '=' !in pad by {
      assert !IsSpace('=');
    }
    assert key + pad + "=" + pad + value == Join([key + pad, pad + value], '=');
    SplitJoin([key + pad, pad + value], '=');
  }

  /** The key and the value lose their padding. */
  lemma StripSides(pad: string, key: string, value: string)
    requires AllSpace(pad) && IsStripped(key) && IsStripped(value)
    ensures Strip(key + pad) == key && Strip(pad + value) == value
  {
    assert [] + key + pad == key + pad;
    StripPadded([], key, pad);
    assert pad + value + [] == pad + value;
    StripPadded(pad, value, []);
  }

  /** One argument, padded with blanks, parses to its key and (translated) value. */
  lemma ParseArgString(simdMapper: map<string, string>, pad: string, key: string, value: string)
    requires AllSpace(pad) && key != [] && value != [] && IsStripped(key) && IsStripped(value)
    requires '=' !in key && '=' !in value && (key == "simd" ==> value in simdMapper)
    ensures ParseArg(simdMapper, Strip(ArgString(pad, key, value)))
         == Ok((key, if key == "simd" then simdMapper[value] else value))
  {
    StripArgString(pad, key, value);
    SplitArg(pad, key, value);
    StripSides(pad, key, value);
  }

  /** Parsing the arguments of a writable dictionary fills the dictionary back, with the simd value translated. */
  lemma {:induction false} FillEngineString(simdMapper: map<string, string>, d: EngineArgs, pad: string)
    requires Writable(simdMapper, d) && AllSpace(pad)
    ensures FillEngineArgs(simdMapper, ArgStrings(d, pad)) == Ok(MapSimd(simdMapper, d))
    decreases |d|
  {
    if d != [] {
      var n := |d| - 1;
      assert Writable(simdMapper, d[..n]);
      FillEngineString(simdMapper, d[..n], pad);
      FillLastArg(simdMapper, d, pad);
      MapSimdPut(simdMapper, d);
    } else {
      assert ArgStrings(d, pad) == [];
      assert MapSimd(simdMapper, d) == [];
    }
  }

  /** The last argument of the engine string is stored after those before it. */
  lemma FillLastArg(simdMapper: map<string, string>, d: EngineArgs, pad: string)
    requires Writable(simdMapper, d) && AllSpace(pad) && d != []
    requires FillEngineArgs(simdMapper, ArgStrings(d[..|d| - 1], pad)).Ok?
    ensures var n := |d| - 1;
      var key, value := d[n].0, d[n].1;
      FillEngineArgs(simdMapper, ArgStrings(d, pad))
        == Ok(Put(FillEngineArgs(simdMapper, ArgStrings(d[..n], pad)).value, key,
                  if key == "simd" then simdMapper[value] else value))
  {
    var n := |d| - 1;
    var pieces := ArgStrings(d, pad);
    assert pieces[..n] == ArgStrings(d[..n], pad);
    assert pieces[n] == ArgString(pad, d[n].0, d[n].1);
    assert WritableArg(simdMapper, d[n].0, d[n].1);
    ParseArgString(simdMapper, pad, d[n].0, d[n].1);
  }

  /** Storing the last entry of a dictionary with distinct keys into the translation of the others appends it. */
  lemma MapSimdPut(simdMapper: map<string, string>, d: EngineArgs)
    requires Writable(simdMapper, d) && d != []
    ensures var n := |d| - 1;
      var key, value := d[n].0, d[n].1;
      Put(MapSimd(simdMapper, d[..n]), key, if key == "simd" then simdMapper[value] else value)
        == MapSimd(simdMapper, d)
  {
    var n := |d| - 1;
    var m := MapSimd(simdMapper, d[..n]);
    var key := d[n].0;
    assert key !in KeySet(m) by {
      forall j | 0 <= j < |m| ensures m[j].0 != key {
        assert m[j].0 == d[j].0;
      }
    }
    PutNew(m, key, if key == "simd" then simdMapper[d[n].1] else d[n].1);
    MapSimdLast(simdMapper, d);
  }

  /**
   * Round trip: writing a dictionary as an engine string, with any blanks
   * around keys and values, and parsing it back gives the dictionary, with
   * the simd value translated by the SIMD table.
   */
  lemma ParseEngineString(simdMapper: map<string, string>, d: EngineArgs, pad: string)
    requires Writable(simdMapper, d) && AllSpace(pad) && d != []
    ensures ParseEngineSpec(simdMapper, EngineString(d, pad)) == Ok(Some(MapSimd(simdMapper, d)))
  {
    var pieces := ArgStrings(d, pad);
    assert ':' !in pad by {
      assert !IsSpace(':');
    }
    assert forall k :: 0 <= k < |pieces| ==> ':' !in pieces[k];
    SplitJoin(pieces, ':');
    assert EngineString(d, pad) != "" by {
      assert '=' in pieces[0];
      if |pieces| > 1 {
        assert Join(pieces, ':') == pieces[0] + [':'] + Join(pieces[1..], ':');
      }
    }
    FillEngineString(simdMapper, d, pad);
  }

  // ---------------------------------------------------------------- what the parsed dictionary holds

  /** After `d[key] = value` every entry is an old entry or the new one. */
  lemma PutEntries(d: EngineArgs, key: string, value: string)
    ensures var r := Put(d, key, value);
      forall j :: 0 <= j < |r| ==> r[j] == (key, value) || (j < |d| && r[j] == d[j])
  {
  }

  /** Neither a key nor a value of the dictionary holds a '$'. */
  predicate DollarFree(d: EngineArgs) {
    forall k :: 0 <= k < |d| ==> '$' !in d[k].0 && '$' !in d[k].1
  }

  /** Every key of the dictionary is stripped, and its simd value is one the SIMD table gives. */
  predicate Normalised(simdMapper: map<string, string>, d: EngineArgs) {
    forall k :: 0 <= k < |d| ==> IsStripped(d[k].0) && (d[k].0 == "simd" ==> d[k].1 in simdMapper.Values)
  }

  /** Every value of the SIMD table is free of '$'. */
  predicate CleanMapper(simdMapper: map<string, string>) {
    forall v :: v in simdMapper.Values ==> '$' !in v
  }

  /** One parsed argument: a stripped key, a simd value from the table, and no '$' brought in. */
  lemma ParseArgShape(simdMapper: map<string, string>, arg: string)
    requires ParseArg(simdMapper, arg).Ok?
    ensures var kv := ParseArg(simdMapper, arg).value;
      && IsStripped(kv.0)
      && (kv.0 == "simd" ==> kv.1 in simdMapper.Values)
      && ('$' !in arg && CleanMapper(simdMapper) ==> '$' !in kv.0 && '$' !in kv.1)
  {
    var parts := Split(arg, '=');
    if '$' !in arg {
      SplitKeeps(arg, '=', '$');
      StripKeeps(parts[0], '$');
      StripKeeps(parts[1], '$');
    }
  }

  /**
   * The dictionary `_parse_engine` fills has stripped keys, holds for simd
   * a name from the SIMD table, and takes no '$' from anywhere else than
   * the engine string and the table.
   */
  lemma {:induction false} FillShape(simdMapper: map<string, string>, pieces: seq<string>)
    requires FillEngineArgs(simdMapper, pieces).Ok?
    ensures Normalised(simdMapper, FillEngineArgs(simdMapper, pieces).value)
    ensures (forall i :: 0 <= i < |pieces| ==> '$' !in pieces[i]) && CleanMapper(simdMapper) ==>
            DollarFree(FillEngineArgs(simdMapper, pieces).value)
    decreases |pieces|
  {
    if pieces != [] {
      var init := pieces[..|pieces| - 1];
      var last := pieces[|pieces| - 1];
      FillShape(simdMapper, init);
      var d := FillEngineArgs(simdMapper, init).value;
      var kv := ParseArg(simdMapper, Strip(last)).value;
      var r := FillEngineArgs(simdMapper, pieces).value;
      assert r == Put(d, kv.0, kv.1);
      PutEntries(d, kv.0, kv.1);
      ParseArgShape(simdMapper, Strip(last));
      forall j | 0 <= j < |r|
        ensures IsStripped(r[j].0) && (r[j].0 == "simd" ==> r[j].1 in simdMapper.Values)
      {
        if r[j] != kv {
          assert r[j] == d[j];
        }
      }
      if (forall i :: 0 <= i < |pieces| ==> '$' !in pieces[i]) && CleanMapper(simdMapper) {
        assert '$' !in last;
        StripKeeps(last, '$');
        assert forall i :: 0 <= i < |init| ==> init[i] == pieces[i];
        forall j | 0 <= j < |r|
          ensures '$' !in r[j].0 && '$' !in r[j].1
        {
          if r[j] != kv {
            assert r[j] == d[j];
          }
        }
      }
    }
  }

  /** A parsed engine is one its placeholders can be filled from, when no '$' comes in. */
  lemma ParsedSubstitutable(simdMapper: map<string, string>, engine: string)
    requires ParseEngineSpec(simdMapper, engine).Ok? && ParseEngineSpec(simdMapper, engine).value.Some?
    requires '$' !in engine && CleanMapper(simdMapper)
    ensures var d := ParseEngineSpec(simdMapper, engine).value.value;
      DistinctKeys(d) && Normalised(simdMapper, d) && DollarFree(d) && Substitutable(d)
  {
    var pieces := Split(engine, ':');
    SplitKeeps(engine, ':', '$');
    FillShape(simdMapper, pieces);
  }

  // ---------------------------------------------------------------- one engine's build

  /**
   * The attributes of the application stage that `engines` reads. Those
   * only some handler sets are None until it has run: `gromacs` sets the
   * options, the directories, the prefix, the environment and the URL;
   * `regtest` sets preconfigure and check. `_prepare` sets `mpi_enabled`
   * always and `double_precision_enabled` only when double was given.
   */
  datatype EngineContext = EngineContext(
    mpiEnabled: bool,
    doublePrecision: Option<OptValue>,
    gromacsCmakeOpts: Option<string>,
    sourceDirectory: Option<string>,
    buildDirectory: Option<FormatString>,
    prefix: Option<string>,
    buildEnvironment: Option<map<string, string>>,
    url: Option<string>,
    preconfigure: Option<seq<string>>,
    check: Option<bool>)

  /**
   * The first half of one pass of the `engines` loop: parse the engine,
   * compute the suffix from its rdtscp value, and fill the engine's
   * placeholders in the stage-wide options. Gives the dictionary and the
   * expanded options, or the first exception in the source's order.
   */
  function EngineOptions(cfg: Config, ctx: EngineContext, engine: string): Result<(EngineArgs, string)> {
    var parsed :- ParseEngineSpec(cfg.simdMapper, engine);
    if parsed.None? then Err(EmptyEngine)
    else
      var d := parsed.value;
      var rdtscp :- Item(d, "rdtscp");
      var suffix :- BinLibsSuffix(cfg, ctx.mpiEnabled, ctx.doublePrecision, rdtscp);
      var opts :- Attribute(ctx.gromacsCmakeOpts, "gromacs_cmake_opts");
      Ok((d, ExpandEngine(opts, suffix, d)))
  }

  /**
   * The second half of one pass: the generic CMake build of the expanded
   * options `opts` of the engine `d`, in the build directory named after
   * its SIMD level, with the stage's other attributes.
   */
  function CmakeBuild(ctx: EngineContext, d: EngineArgs, opts: string): Result<Instr> {
    var directory :- Attribute(ctx.sourceDirectory, "source_directory");
    var buildFormat :- Attribute(ctx.buildDirectory, "build_directory");
    var simd :- Item(d, "simd");
    var buildDirectory :- Format(buildFormat, map["simd" := simd]);
    var prefix :- Attribute(ctx.prefix, "prefix");
    var environment :- Attribute(ctx.buildEnvironment, "build_environment");
    var url :- Attribute(ctx.url, "url");
    var preconfigure :- Attribute(ctx.preconfigure, "preconfigure");
    var check :- Attribute(ctx.check, "check");
    Ok(GenericCmake(Words(opts), directory, buildDirectory, prefix, environment, url, preconfigure, check))
  }

  /** One pass of the `engines` loop: the generic CMake build of one engine. */
  function EngineBuild(cfg: Config, ctx: EngineContext, engine: string): Result<Instr> {
    var eo :- EngineOptions(cfg, ctx, engine);
    CmakeBuild(ctx, eo.0, eo.1)
  }

  /**
   * The errors of one engine, in the order the source meets them: an empty
   * engine string, then a malformed argument or unknown SIMD level, then a
   * missing rdtscp key.
   */
  lemma EngineBuildErrors(cfg: Config, ctx: EngineContext, engine: string)
    ensures engine == "" ==> EngineBuild(cfg, ctx, engine) == Err(EmptyEngine)
    ensures ParseEngineSpec(cfg.simdMapper, engine).Err? ==>
              EngineBuild(cfg, ctx, engine) == Err(ParseEngineSpec(cfg.simdMapper, engine).error)
    ensures engine != "" && ParseEngineSpec(cfg.simdMapper, engine).Ok? &&
            "rdtscp" !in KeySet(ParseEngineSpec(cfg.simdMapper, engine).value.value) ==>
              EngineBuild(cfg, ctx, engine) == Err(MissingKey("rdtscp"))
  {
    ParseEngineNone(cfg.simdMapper, engine);
  }

  /** An engine whose options were expanded was parsed, has an rdtscp value, and its dictionary is normalised. */
  lemma EngineOptionsShape(cfg: Config, ctx: EngineContext, engine: string)
    requires EngineOptions(cfg, ctx, engine).Ok?
    ensures var d := EngineOptions(cfg, ctx, engine).value.0;
      && engine != ""
      && ParseEngineSpec(cfg.simdMapper, engine) == Ok(Some(d))
      && "rdtscp" in KeySet(d)
      && Normalised(cfg.simdMapper, d)
  {
    var parsed := ParseEngineSpec(cfg.simdMapper, engine);
    assert parsed.Ok? && parsed.value.Some?;
    var d := parsed.value.value;
    assert engine != "";
    assert Item(d, "rdtscp").Ok?;
    assert EngineOptions(cfg, ctx, engine).value.0 == d;
    assert d == FillEngineArgs(cfg.simdMapper, Split(engine, ':')).value;
    FillShape(cfg.simdMapper, Split(engine, ':'));
  }

  /** The source's `'build.{simd}'.format(simd=x)`. */
  lemma BuildDirectoryOf(x: string)
    ensures Format(BuildDirectoryFormat, map["simd" := x]) == Ok("build." + x)
  {
    var f, m := BuildDirectoryFormat, map["simd" := x];
    assert f[1..] == [Field("simd")] && f[1..][1..] == [];
    assert Format(f[1..], m) == Ok(x + "");
    assert x + "" == x;
  }

  /**
   * A generic CMake build: the options are the words of the expanded
   * options, the SIMD level was given, and every other argument is the
   * stage attribute of that name; with the source's `build.{simd}` format
   * the build directory is "build." followed by the SIMD name.
   */
  lemma CmakeBuildResult(ctx: EngineContext, d: EngineArgs, opts: string)
    requires CmakeBuild(ctx, d, opts).Ok?
    ensures var i := CmakeBuild(ctx, d, opts).value;
      && "simd" in KeySet(d)
      && i.GenericCmake?
      && i.cmakeOpts == Words(opts)
      && Some(i.directory) == ctx.sourceDirectory
      && (ctx.buildDirectory == Some(BuildDirectoryFormat) ==> i.buildDirectory == "build." + Find(d, "simd").value)
      && Some(i.prefix) == ctx.prefix && Some(i.buildEnvironment) == ctx.buildEnvironment
      && Some(i.url) == ctx.url && Some(i.preconfigure) == ctx.preconfigure && Some(i.check) == ctx.check
  {
    assert ctx.sourceDirectory.Some? && ctx.buildDirectory.Some?;
    assert Item(d, "simd").Ok?;
    var simd := Item(d, "simd").value;
    assert Format(ctx.buildDirectory.value, map["simd" := simd]).Ok?;
    assert ctx.prefix.Some? && ctx.buildEnvironment.Some? && ctx.url.Some?;
    assert ctx.preconfigure.Some? && ctx.check.Some?;
    if ctx.buildDirectory == Some(BuildDirectoryFormat) {
      BuildDirectoryOf(simd);
    }
  }

  /**
   * A built engine was parsed into a dictionary with an rdtscp and a simd
   * key, whose SIMD name is one of the table's, and it is the generic
   * CMake build of the engine's expanded options.
   */
  lemma EngineBuildResult(cfg: Config, ctx: EngineContext, engine: string)
    requires EngineBuild(cfg, ctx, engine).Ok?
    ensures EngineOptions(cfg, ctx, engine).Ok?
    ensures var eo := EngineOptions(cfg, ctx, engine).value;
      && EngineBuild(cfg, ctx, engine) == CmakeBuild(ctx, eo.0, eo.1)
      && "simd" in KeySet(eo.0) && "rdtscp" in KeySet(eo.0)
      && Find(eo.0, "simd").value in cfg.simdMapper.Values
  {
    var eo := EngineOptions(cfg, ctx, engine).value;
    EngineOptionsShape(cfg, ctx, engine);
    CmakeBuildResult(ctx, eo.0, eo.1);
    var k := IndexOfKey(eo.0, "simd");
    assert eo.0[k].0 == "simd";
  }

  // ---------------------------------------------------------------- the engines loop

  /**
   * Running steps one after the other until one raises: the values of the
   * steps before it, and Fail with its exception (Pass when none raises).
   */
  function Collect(rs: seq<Result<Instr>>): (seq<Instr>, Outcome)
    decreases |rs|
  {
    if rs == [] then ([], Pass)
    else
      var run := Collect(rs[..|rs| - 1]);
      if run.1.Fail? then run
      else
        match rs[|rs| - 1]
        case Err(e) => (run.0, Fail(e))
        case Ok(i) => (run.0 + [i], Pass)
  }

  /**
   * The steps are collected in order: the k-th value is the k-th step's;
   * the run completes exactly when every step succeeded, and otherwise
   * stops at the first step that raised, with its exception.
   */
  lemma {:induction false} CollectInOrder(rs: seq<Result<Instr>>)
    ensures var run := Collect(rs);
      && |run.0| <= |rs|
      && (forall k :: 0 <= k < |run.0| ==> rs[k] == Ok(run.0[k]))
      && (run.1.Pass? <==> |run.0| == |rs|)
      && (run.1.Fail? ==> rs[|run.0|] == Err(run.1.error))
    decreases |rs|
  {
    if rs != [] {
      var init := rs[..|rs| - 1];
      CollectInOrder(init);
      assert forall k :: 0 <= k < |init| ==> init[k] == rs[k];
    }
  }

  /** One more step after a run that has not raised: its value is added, or its exception ends the run. */
  lemma CollectStep(rs: seq<Result<Instr>>, i: nat)
    requires i < |rs| && Collect(rs[..i]).1.Pass?
    ensures rs[i].Ok? ==> Collect(rs[..i + 1]) == (Collect(rs[..i]).0 + [rs[i].value], Pass)
    ensures rs[i].Err? ==> Collect(rs[..i + 1]) == (Collect(rs[..i]).0, Fail(rs[i].error))
  {
    assert rs[..i + 1][..i] == rs[..i];
  }

  /** Once a step has raised, the steps after it change nothing. */
  lemma {:induction false} CollectStops(rs: seq<Result<Instr>>, i: nat)
    requires i <= |rs| && Collect(rs[..i]).1.Fail?
    ensures Collect(rs) == Collect(rs[..i])
    decreases |rs|
  {
    if i < |rs| {
      var init := rs[..|rs| - 1];
      assert init[..i] == rs[..i];
      CollectStops(init, i);
    } else {
      assert rs[..i] == rs;
    }
  }

  /** The build of each engine in the list. */
  function EngineBuilds(cfg: Config, ctx: EngineContext, engines: seq<string>): seq<Result<Instr>> {
    seq(|engines|, k requires 0 <= k < |engines| => EngineBuild(cfg, ctx, engines[k]))
  }

  /**
   * The `engines` loop over a list of engine strings: the builds appended,
   * first to last, and Fail with the exception of the first engine that
   * raises (the builds before it stay appended).
   */
  function EngineRun(cfg: Config, ctx: EngineContext, engines: seq<string>): (seq<Instr>, Outcome) {
    Collect(EngineBuilds(cfg, ctx, engines))
  }

  /**
   * The loop builds the engines in order: the k-th instruction is the k-th
   * engine's build; it completes exactly when every engine was built, and
   * otherwise stops at the first engine that raises, with that exception.
   */
  lemma EngineRunBuilds(cfg: Config, ctx: EngineContext, engines: seq<string>)
    ensures var run := EngineRun(cfg, ctx, engines);
      && |run.0| <= |engines|
      && (forall k :: 0 <= k < |run.0| ==> EngineBuild(cfg, ctx, engines[k]) == Ok(run.0[k]))
      && (run.1.Pass? <==> |run.0| == |engines|)
      && (run.1.Fail? ==> EngineBuild(cfg, ctx, engines[|run.0|]) == Err(run.1.error))
  {
    CollectInOrder(EngineBuilds(cfg, ctx, engines));
  }

  // ---------------------------------------------------------------- no placeholder is left

  /** Neither the suffix options nor the literals of the binary suffix format hold a '$'. */
  predicate CleanSuffixes(cfg: Config) {
    && (forall v :: v in cfg.engineSuffixOptions.Values ==> '$' !in v)
    && (forall i :: 0 <= i < |cfg.binarySuffixFormat| && cfg.binarySuffixFormat[i].Literal? ==>
          '$' !in cfg.binarySuffixFormat[i].text)
  }

  lemma SuffixPartKeeps(cfg: Config, key: string, on: bool)
    requires CleanSuffixes(cfg) && SuffixPart(cfg, key, on).Ok?
    ensures '$' !in SuffixPart(cfg, key, on).value
  {
    if on {
      assert cfg.engineSuffixOptions[key] in cfg.engineSuffixOptions.Values;
    }
  }

  lemma SuffixKeeps(cfg: Config, mpi: bool, double: Option<OptValue>, rdtscp: string)
    requires CleanSuffixes(cfg) && BinLibsSuffix(cfg, mpi, double, rdtscp).Ok?
    ensures '$' !in BinLibsSuffix(cfg, mpi, double, rdtscp).value
  {
    var dv := DoubleEnabled(double).value;
    SuffixPartKeeps(cfg, "mpi", mpi);
    SuffixPartKeeps(cfg, "double", dv);
    SuffixPartKeeps(cfg, "rdtscp", Lower(rdtscp) == "on");
    var values := map["mpi" := SuffixPart(cfg, "mpi", mpi).value,
                      "double" := SuffixPart(cfg, "double", dv).value,
                      "rdtscp" := SuffixPart(cfg, "rdtscp", Lower(rdtscp) == "on").value];
    FormatKeeps(cfg.binarySuffixFormat, values, '$');
  }

  /**
   * Every placeholder is filled: when the stage-wide options are a
   * well-formed template whose open placeholders are among the four
   * per-engine ones, a built engine's CMake options hold no '$' (as long
   * as none comes in through the engine string or the configuration).
   */
  lemma EngineOptionsFilled(cfg: Config, ctx: EngineContext, engine: string, ps: seq<Piece>)
    requires ctx.gromacsCmakeOpts == Some(Render(ps)) && WellFormed(ps) && HoleNames(ps) <= EngineHoles
    requires '$' !in engine && CleanMapper(cfg.simdMapper) && CleanSuffixes(cfg)
    requires EngineBuild(cfg, ctx, engine).Ok?
    ensures EngineOptions(cfg, ctx, engine).Ok? && '$' !in EngineOptions(cfg, ctx, engine).value.1
    ensures var b := EngineBuild(cfg, ctx, engine).value;
      b.GenericCmake? && forall k :: 0 <= k < |b.cmakeOpts| ==> '$' !in b.cmakeOpts[k]
  {
    EngineBuildResult(cfg, ctx, engine);
    var eo := EngineOptions(cfg, ctx, engine).value;
    var d := eo.0;
    ParseEngineNone(cfg.simdMapper, engine);
    ParsedSubstitutable(cfg.simdMapper, engine);
    var rdtscp := Item(d, "rdtscp").value;
    var suffix := BinLibsSuffix(cfg, ctx.mpiEnabled, ctx.doublePrecision, rdtscp).value;
    SuffixKeeps(cfg, ctx.mpiEnabled, ctx.doublePrecision, rdtscp);
    assert eo.1 == ExpandEngine(Render(ps), suffix, d);
    ExpandEngineRendered(ps, suffix, d);
    var r := SubstAll(ps, EngineBindings(suffix, d));
    assert HoleNames(r) == {} by {
      assert EngineHoles <= SuffixHoles + KeySet(d);
    }
    FilledRender(r);
    CmakeBuildResult(ctx, d, eo.1);
    WordsKeep(eo.1, '$');
  }
}

/**
 * Python's str.format with named fields, on a format string given as its
 * parsed pieces (literal text and `{name}` fields). Parsing the braces is
 * the library's work and is not modelled.
 */
module Formats {
  import opened Outcomes

  datatype FormatPiece = Literal(text: string) | Field(name: string)

  type FormatString = seq<FormatPiece>

  function FieldNames(f: FormatString): set<string> {
    set i | 0 <= i < |f| && f[i].Field? :: f[i].name
  }

  /** Every field of `f` is one of `keys`. */
  predicate Covered(f: FormatString, keys: set<string>) {
    f == [] || ((f[0].Field? ==> f[0].name in keys) && Covered(f[1..], keys))
  }

  lemma {:induction false} CoveredIsFieldNames(f: FormatString, keys: set<string>)
    ensures Covered(f, keys) <==> FieldNames(f) <= keys
  {
    if f != [] {
      CoveredIsFieldNames(f[1..], keys);
      assert FieldNames(f) == FieldNames(f[..1]) + FieldNames(f[1..]) by {
        forall n | n in FieldNames(f) ensures n in FieldNames(f[..1]) + FieldNames(f[1..]) {
          var i :| 0 <= i < |f| && f[i].Field? && f[i].name == n;
          if i > 0 { assert f[1..][i - 1] == f[i]; }
        }
        forall n | n in FieldNames(f[1..]) ensures n in FieldNames(f) {
          var i :| 0 <= i < |f[1..]| && f[1..][i].Field? && f[1..][i].name == n;
          assert f[i + 1] == f[1..][i];
        }
      }
    }
  }

  /** How many `{name}` fields `f` holds. */
  function Occurrences(f: FormatString, name: string): nat {
    if f == [] then 0 else (if f[0] == Field(name) then 1 else 0) + Occurrences(f[1..], name)
  }

  /**
   * f.format(**values): the literals with every field replaced by its value.
   * The first field, from the left, that has no value raises KeyError.
   */
  function Format(f: FormatString, values: map<string, string>): (r: Result<string>)
    ensures r.Ok? <==> Covered(f, values.Keys)
    ensures r.Err? ==> r.error.MissingKey? && r.error.key !in values
  {
    if f == [] then Ok("")
    else
      match f[0]
      case Literal(t) =>
        var rest :- Format(f[1..], values);
        Ok(t + rest)
      case Field(n) =>
        if n !in values then Err(MissingKey(n))
        else
          var rest :- Format(f[1..], values);
          Ok(values[n] + rest)
  }

  /**
   * Setting one field's value to `x` instead of the empty string lengthens
   * the result by |x| for every occurrence of that field.
   */
  lemma {:induction false} FormatFieldLength(f: FormatString, values: map<string, string>, name: string, x: string)
    requires Covered(f, values.Keys + {name})
    ensures Format(f, values[name := x]).Ok? && Format(f, values[name := ""]).Ok?
    ensures |Format(f, values[name := x]).value|
         == |Format(f, values[name := ""]).value| + Occurrences(f, name) * |x|
  {
    var vx, ve := values[name := x], values[name := ""];
    assert vx.Keys == values.Keys + {name} && ve.Keys == vx.Keys;
    if f != [] {
      FormatFieldLength(f[1..], values, name, x);
      var restX, restE := Format(f[1..], vx).value, Format(f[1..], ve).value;
      var k := Occurrences(f[1..], name);
      assert |restX| == |restE| + k * |x|;
      match f[0]
      case Literal(t) =>
        assert Occurrences(f, name) == k;
        assert Format(f, vx) == Ok(t + restX);
        assert Format(f, ve) == Ok(t + restE);
      case Field(n) =>
        assert Format(f, vx) == Ok(vx[n] + restX);
        assert Format(f, ve) == Ok(ve[n] + restE);
        if n == name {
          assert Occurrences(f, name) == k + 1;
          MulSucc(k, |x|);
        } else {
          assert Occurrences(f, name) == k;
          assert vx[n] == ve[n];
        }
    }
  }

  lemma MulSucc(k: nat, n: nat)
    ensures (k + 1) * n == k * n + n
  {
  }

  /** A character that no literal and no value holds is not in the formatted string. */
  lemma {:induction false} FormatKeeps(f: FormatString, values: map<string, string>, c: char)
    requires forall i :: 0 <= i < |f| && f[i].Literal? ==> c !in f[i].text
    requires forall n :: n in values ==> c !in values[n]
    requires Format(f, values).Ok?
    ensures c !in Format(f, values).value
  {
    if f != [] {
      FormatKeeps(f[1..], values, c);
    }
  }
}

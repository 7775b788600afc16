/**
 * The version gate: `StageMixin.version_checked` compares two versions the
 * way distutils' StrictVersion does and raises when the given one is older
 * than the required one. Versions are taken already parsed, as sequences
 * of numbers (major, minor, patch); the string parser is a parameter.
 */
module Versions {
  import opened Outcomes

  type Version = seq<nat>

  /** The `i`-th component, reading missing components as 0 ("3.13" is "3.13.0"). */
  function Component(v: Version, i: nat): nat {
    if i < |v| then v[i] else 0
  }

  function Rest(v: Version): Version {
    if v == [] then [] else v[1..]
  }

  /** Three-way comparison, component by component from the left: -1, 0 or 1. */
  function Compare(a: Version, b: Version): (c: int)
    ensures -1 <= c <= 1
    decreases |a| + |b|
  {
    if a == [] && b == [] then 0
    else if Component(a, 0) < Component(b, 0) then -1
    else if Component(a, 0) > Component(b, 0) then 1
    else Compare(Rest(a), Rest(b))
  }

  /** `a` and `b` agree on every component before `k`. */
  ghost predicate AgreeBelow(a: Version, b: Version, k: nat) {
    forall i: nat :: i < k ==> Component(a, i) == Component(b, i)
  }

  /** The reference order: at the first component where they differ, `a` is smaller. */
  ghost predicate LexLess(a: Version, b: Version) {
    exists k: nat :: AgreeBelow(a, b, k) && Component(a, k) < Component(b, k)
  }

  /** The same version once padded with zeros. */
  ghost predicate SameVersion(a: Version, b: Version) {
    forall i: nat :: Component(a, i) == Component(b, i)
  }

  lemma ComponentOfRest(v: Version, i: nat)
    ensures Component(Rest(v), i) == Component(v, i + 1)
  {
  }

  /** Compare answers -1 exactly when `a` comes first in the reference order. */
  lemma {:induction false} CompareIsLexLess(a: Version, b: Version)
    ensures Compare(a, b) < 0 <==> LexLess(a, b)
    decreases |a| + |b|
  {
    if a == [] && b == [] {
      assert forall k: nat :: Component(a, k) == 0 && Component(b, k) == 0;
    } else if Component(a, 0) < Component(b, 0) {
      assert AgreeBelow(a, b, 0);
    } else if Component(a, 0) > Component(b, 0) {
      var a0, b0 := Component(a, 0), Component(b, 0);
      forall k: nat | AgreeBelow(a, b, k) ensures Component(a, k) >= Component(b, k) {
        assert 0 < k ==> a0 == b0;
      }
    } else {
      CompareIsLexLess(Rest(a), Rest(b));
      if LexLess(a, b) {
        var k: nat :| AgreeBelow(a, b, k) && Component(a, k) < Component(b, k);
        assert k != 0;
        ComponentOfRest(a, k - 1);
        ComponentOfRest(b, k - 1);
        assert AgreeBelow(Rest(a), Rest(b), k - 1) by {
          forall i: nat | i < k - 1 ensures Component(Rest(a), i) == Component(Rest(b), i) {
            ComponentOfRest(a, i);
            ComponentOfRest(b, i);
          }
        }
      }
      if LexLess(Rest(a), Rest(b)) {
        var k: nat :| AgreeBelow(Rest(a), Rest(b), k) && Component(Rest(a), k) < Component(Rest(b), k);
        ComponentOfRest(a, k);
        ComponentOfRest(b, k);
        assert AgreeBelow(a, b, k + 1) by {
          forall i: nat | i < k + 1 ensures Component(a, i) == Component(b, i) {
            if i > 0 {
              ComponentOfRest(a, i - 1);
              ComponentOfRest(b, i - 1);
            }
          }
        }
      }
    }
  }

  /** Compare answers 0 exactly when the two versions are equal once padded with zeros. */
  lemma {:induction false} CompareIsSameVersion(a: Version, b: Version)
    ensures Compare(a, b) == 0 <==> SameVersion(a, b)
    decreases |a| + |b|
  {
    if a == [] && b == [] {
    } else if Component(a, 0) != Component(b, 0) {
    } else {
      CompareIsSameVersion(Rest(a), Rest(b));
      if SameVersion(a, b) {
        forall i: nat ensures Component(Rest(a), i) == Component(Rest(b), i) {
          ComponentOfRest(a, i);
          ComponentOfRest(b, i);
        }
      }
      if SameVersion(Rest(a), Rest(b)) {
        forall i: nat ensures Component(a, i) == Component(b, i) {
          if i > 0 {
            ComponentOfRest(a, i - 1);
            ComponentOfRest(b, i - 1);
          }
        }
      }
    }
  }

  /** Swapping the arguments flips the answer. */
  lemma {:induction false} CompareAntisymmetric(a: Version, b: Version)
    ensures Compare(b, a) == -Compare(a, b)
    decreases |a| + |b|
  {
    if !(a == [] && b == []) && Component(a, 0) == Component(b, 0) {
      CompareAntisymmetric(Rest(a), Rest(b));
    }
  }

  /** Compare orders versions transitively. */
  lemma {:induction false} CompareTransitive(a: Version, b: Version, c: Version)
    requires Compare(a, b) <= 0 && Compare(b, c) <= 0
    ensures Compare(a, c) <= 0
    decreases |a| + |b| + |c|
  {
    if !(a == [] && c == []) && Component(a, 0) == Component(c, 0) {
      if b == [] {
        assert Component(b, 0) == 0;
      }
      CompareTransitive(Rest(a), Rest(b), Rest(c));
    }
  }

  /**
   * version_checked(tool, required, given): true when `given` is at least
   * `required`; otherwise the RuntimeError that names the tool and both
   * versions. A string that is not a strict version raises ValueError when
   * StrictVersion parses it (`given` is parsed first).
   */
  function VersionChecked(tool: string, required: string, given: string,
                          strictVersion: string -> Option<Version>): (r: Result<bool>)
    ensures r.Ok? ==> r.value
    ensures r.Ok? <==> && strictVersion(given).Some? && strictVersion(required).Some?
                       && !LexLess(strictVersion(given).value, strictVersion(required).value)
    ensures strictVersion(given).None? ==> r == Err(InvalidVersion(given))
    ensures strictVersion(given).Some? && strictVersion(required).None? ==> r == Err(InvalidVersion(required))
    ensures strictVersion(given).Some? && strictVersion(required).Some? && r.Err? ==>
              r.error == VersionNotFulfilled(tool, given, required)
  {
    match strictVersion(given)
    case None => Err(InvalidVersion(given))
    case Some(g) =>
      match strictVersion(required)
      case None => Err(InvalidVersion(required))
      case Some(q) =>
        CompareIsLexLess(g, q);
        if Compare(g, q) < 0 then Err(VersionNotFulfilled(tool, given, required)) else Ok(true)
  }
}

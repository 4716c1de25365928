/** The two progress formulas of the bulk scan, on exact reals. */
module Progress {

  /** The value reported after the `completed`-th submission:
      `completed / total * 50`. */
  function PostPercentage(completed: nat, total: nat): (p: real)
    requires 0 < total
    ensures 0 < completed <= total ==> 0.0 < p <= 50.0
    ensures p == 50.0 <==> completed == total
  {
    var q := completed as real / total as real;
    assert q * total as real == completed as real;
    q * 50.0
  }

  /** The value reported after a successful metrics fetch for the entry at
      `index`: `50 + (index + 1) / total * 50`. */
  function GetPercentage(index: nat, total: nat): (p: real)
    requires 0 < total
    ensures index < total ==> 50.0 < p <= 100.0
    ensures p == 100.0 <==> index + 1 == total
  {
    var q := (index + 1) as real / total as real;
    assert q * total as real == (index + 1) as real;
    50.0 + q * 50.0
  }

  /** Later submissions report strictly larger values. */
  lemma PostPercentageIncreasing(a: nat, b: nat, total: nat)
    requires 0 < total && a < b
    ensures PostPercentage(a, total) < PostPercentage(b, total)
  {
    var qa := a as real / total as real;
    var qb := b as real / total as real;
    assert qa * total as real < qb * total as real;
  }

  /** Later entries report strictly larger values. */
  lemma GetPercentageIncreasing(i: nat, j: nat, total: nat)
    requires 0 < total && i < j
    ensures GetPercentage(i, total) < GetPercentage(j, total)
  {
    var qi := (i + 1) as real / total as real;
    var qj := (j + 1) as real / total as real;
    assert qi * total as real < qj * total as real;
  }

  /** Each reported value is larger than all earlier ones. */
  predicate StrictlyIncreasing(p: seq<real>) {
    forall i, j :: 0 <= i < j < |p| ==> p[i] < p[j]
  }
}

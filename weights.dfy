/** Normalisation of the raw criterion weights (the desires file). */
module Weights {
  import opened Wrappers
  import opened Dicts
  import opened Domain

  /** `sum(raw_weights.values())`. */
  function Total(d: seq<(string, real)>): real
  {
    if d == [] then 0.0 else d[0].1 + Total(d[1..])
  }

  /** Every value divided by `total`, keys and order kept. */
  function Divided(d: Dict<real>, total: real): Dict<real>
    requires total != 0.0
  {
    var r := seq(|d|, i requires 0 <= i < |d| => (d[i].0, d[i].1 / total));
    assert DistinctKeys(r);
    r
  }

  /** Dividing every value by `total` divides their sum by `total`. */
  lemma {:induction false} TotalDivided(d: seq<(string, real)>, r: seq<(string, real)>, total: real)
    requires total != 0.0 && |r| == |d|
    requires forall i :: 0 <= i < |d| ==> r[i].1 == d[i].1 / total
    ensures Total(r) == Total(d) / total
    decreases |d|
  {
    if d != [] {
      TotalDivided(d[1..], r[1..], total);
      var a, b := d[0].1, Total(d[1..]);
      assert (a + b) / total == a / total + b / total;
    }
  }

  /**
   * `_load_weights` after the file read: each weight divided by the total.
   * A non-empty dict whose values sum to zero raises ZeroDivisionError; the
   * empty dict is returned unchanged (nothing is divided).
   */
  function NormalizeWeights(raw: Dict<real>): (r: Result<Dict<real>, Error>)
    ensures r.Failure? <==> raw != [] && Total(raw) == 0.0
    ensures r.Failure? ==> r.error == ZeroWeightTotal
    ensures r.Success? ==> |r.value| == |raw|
    ensures r.Success? ==> forall i :: 0 <= i < |raw| ==>
              r.value[i].0 == raw[i].0 && r.value[i].1 == raw[i].1 / Total(raw)
    ensures r.Success? && raw != [] ==> Total(r.value) == 1.0
  {
    if raw == [] then Success([])
    else if Total(raw) == 0.0 then Failure(ZeroWeightTotal)
    else
      var total := Total(raw);
      var r := Divided(raw, total);
      TotalDivided(raw, r, total);
      assert total / total == 1.0;
      Success(r)
  }

  predicate NonNegativeValues(d: seq<(string, real)>)
  {
    forall i :: 0 <= i < |d| ==> d[i].1 >= 0.0
  }

  /** With non-negative values, no single value exceeds the total. */
  lemma {:induction false} ValueAtMostTotal(d: seq<(string, real)>, i: nat)
    requires NonNegativeValues(d) && i < |d|
    ensures 0.0 <= d[i].1 <= Total(d)
  {
    if i == 0 {
      TotalNonNegative(d[1..]);
    } else {
      ValueAtMostTotal(d[1..], i - 1);
    }
  }

  lemma {:induction false} TotalNonNegative(d: seq<(string, real)>)
    requires NonNegativeValues(d)
    ensures Total(d) >= 0.0
  {
    if d != [] {
      TotalNonNegative(d[1..]);
    }
  }

  /** Looking a criterion up in the normalised weights gives its raw weight over the total (0 when absent). */
  lemma NormalizedLookup(raw: Dict<real>, key: string)
    requires NormalizeWeights(raw).Success?
    ensures raw != [] ==> Get(NormalizeWeights(raw).value, key, 0.0) == Get(raw, key, 0.0) / Total(raw)
    ensures raw == [] ==> Get(NormalizeWeights(raw).value, key, 0.0) == 0.0
  {
    var w := NormalizeWeights(raw).value;
    if i :| 0 <= i < |raw| && raw[i].0 == key {
      assert w[i].0 == key;
    }
  }

  /** Non-negative raw weights normalise into the unit interval. */
  lemma NormalizedInUnitInterval(raw: Dict<real>)
    requires NonNegativeValues(raw) && NormalizeWeights(raw).Success?
    ensures forall i :: 0 <= i < |raw| ==> 0.0 <= NormalizeWeights(raw).value[i].1 <= 1.0
  {
    var w := NormalizeWeights(raw).value;
    forall i | 0 <= i < |raw|
      ensures 0.0 <= w[i].1 <= 1.0
    {
      ValueAtMostTotal(raw, i);
      TotalNonNegative(raw);
      Fraction(raw[i].1, Total(raw));
    }
  }

  /** A share of a positive total is between 0 and 1. */
  lemma Fraction(x: real, t: real)
    requires 0.0 <= x <= t && t != 0.0
    ensures 0.0 <= x / t <= 1.0
  {
    var q := x / t;
    assert q * t == x;
    assert (1.0 - q) * t == t - x;
  }
}

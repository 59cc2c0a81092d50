/** The records the frontend pages work on, and `Math.round` of a mean. */
module Entities {

  /** `Machine` as the dashboard lists it; `health_score` is a whole number. */
  datatype Machine = Machine(id: string, name: string, status: string, healthScore: int, machineType: string)

  /** `FaultDetection` */
  datatype FaultDetection = FaultDetection(
    id: string,
    recordId: string,
    faultType: string,
    severityScore: real,
    confidence: real)

  /** `VibrationRecord`, with the `machine_id` the analysis page joins on. */
  datatype VibrationRecord = VibrationRecord(
    id: string,
    sensorId: string,
    fileName: string,
    processed: bool,
    machineId: string)

  /** `Math.round(s / n)` for a whole-number sum `s`: the nearest integer, halves rounded up. */
  function RoundedMean(s: int, n: nat): (r: int)
    requires n > 0
    ensures (r as real) - 0.5 <= (s as real) / (n as real) < (r as real) + 0.5
  {
    var r := (2 * s + n) / (2 * n);
    RoundedMeanBounds(s, n, r);
    r
  }

  lemma RoundedMeanBounds(s: int, n: nat, r: int)
    requires n > 0 && r == (2 * s + n) / (2 * n)
    ensures (r as real) - 0.5 <= (s as real) / (n as real) < (r as real) + 0.5
  {
    var q := (2 * s + n) % (2 * n);
    assert 2 * s + n == 2 * n * r + q && 0 <= q < 2 * n;
    var nr := n as real;
    var m := (s as real) / nr;
    assert m * nr == s as real;
    assert (m - (r as real) + 0.5) * nr == (q as real) / 2.0 by {
      assert (2 * s) as real == 2.0 * (s as real);
      assert (2 * n * r) as real == 2.0 * nr * (r as real);
    }
    PositiveFactor(m - (r as real) + 0.5, nr, (q as real) / 2.0);
    assert ((r as real) + 0.5 - m) * nr == nr - (q as real) / 2.0;
    PositiveFactor((r as real) + 0.5 - m, nr, nr - (q as real) / 2.0);
  }

  /** A product with a positive factor has the sign of the other factor. */
  lemma PositiveFactor(a: real, b: real, c: real)
    requires b > 0.0 && a * b == c
    ensures c >= 0.0 ==> a >= 0.0
    ensures c > 0.0 ==> a > 0.0
  {
    if a < 0.0 {
      assert a * b < 0.0;
    }
    if a == 0.0 {
      assert a * b == 0.0;
    }
  }

  function SumHealth(ms: seq<Machine>): int {
    if ms == [] then 0 else SumHealth(ms[..|ms| - 1]) + ms[|ms| - 1].healthScore
  }

  /** The average health shown on a card: 0 with no machines, otherwise the
      rounded mean `health_score`. */
  function AverageHealth(ms: seq<Machine>): (r: int)
    ensures ms == [] ==> r == 0
    ensures ms != [] ==>
      (r as real) - 0.5 <= (SumHealth(ms) as real) / (|ms| as real) < (r as real) + 0.5
  {
    if ms == [] then 0 else RoundedMean(SumHealth(ms), |ms|)
  }

  /** The average lies between the lowest and the highest score. */
  lemma {:induction false} AverageHealthWithin(ms: seq<Machine>, lo: int, hi: int)
    requires ms != []
    requires forall i :: 0 <= i < |ms| ==> lo <= ms[i].healthScore <= hi
    ensures lo <= AverageHealth(ms) <= hi
  {
    SumHealthWithin(ms, lo, hi);
    var n := |ms| as real;
    var mean := (SumHealth(ms) as real) / n;
    assert mean * n == SumHealth(ms) as real;
    assert (mean - (lo as real)) * n == (SumHealth(ms) - |ms| * lo) as real;
    PositiveFactor(mean - (lo as real), n, (SumHealth(ms) - |ms| * lo) as real);
    assert ((hi as real) - mean) * n == (|ms| * hi - SumHealth(ms)) as real;
    PositiveFactor((hi as real) - mean, n, (|ms| * hi - SumHealth(ms)) as real);
  }

  lemma {:induction false} SumHealthWithin(ms: seq<Machine>, lo: int, hi: int)
    requires forall i :: 0 <= i < |ms| ==> lo <= ms[i].healthScore <= hi
    ensures |ms| * lo <= SumHealth(ms) <= |ms| * hi
  {
    if ms != [] {
      SumHealthWithin(ms[..|ms| - 1], lo, hi);
    }
  }
}

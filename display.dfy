/** The scaling the plot applies to every intensity curve before drawing it:
    division by the largest magnitude, so that the curve spans at most [-1, 1]. */
module Display {
  import opened Errors

  /** Python's max over a non-empty sequence. */
  function Max(xs: seq<real>): (m: real)
    requires |xs| > 0
    ensures forall i :: 0 <= i < |xs| ==> xs[i] <= m
    ensures exists i :: 0 <= i < |xs| && xs[i] == m
  {
    if |xs| == 1 then xs[0]
    else
      var rest := Max(xs[1..]);
      assert forall i :: 1 <= i < |xs| ==> xs[i] == xs[1..][i - 1];
      if xs[0] >= rest then xs[0] else rest
  }

  /** Python's min over a non-empty sequence. */
  function Min(xs: seq<real>): (m: real)
    requires |xs| > 0
    ensures forall i :: 0 <= i < |xs| ==> m <= xs[i]
    ensures exists i :: 0 <= i < |xs| && xs[i] == m
  {
    if |xs| == 1 then xs[0]
    else
      var rest := Min(xs[1..]);
      assert forall i :: 1 <= i < |xs| ==> xs[i] == xs[1..][i - 1];
      if xs[0] <= rest then xs[0] else rest
  }

  /** max(max(xs), -min(xs)): the largest magnitude in a non-empty sequence. */
  function AbsMax(xs: seq<real>): (m: real)
    requires |xs| > 0
    ensures forall i :: 0 <= i < |xs| ==> -m <= xs[i] <= m
    ensures exists i :: 0 <= i < |xs| && (xs[i] == m || xs[i] == -m)
  {
    var hi, lo := Max(xs), Min(xs);
    if hi >= -lo then hi else -lo
  }

  /** Division of every sample by the largest magnitude, as the plot does before
      drawing. Python's max() raises on an empty sequence; an all-zero sequence would
      divide zero by zero, which the model reports instead of producing NaN. */
  function Normalize(xs: seq<real>): (r: Result<seq<real>>)
    ensures xs == [] ==> r == Err(EmptySequence)
    ensures xs != [] ==> (r == Err(ZeroScale) <==> forall i :: 0 <= i < |xs| ==> xs[i] == 0.0)
    ensures r.Ok? ==> |r.value| == |xs|
    ensures r.Ok? ==> forall i :: 0 <= i < |xs| ==> r.value[i] == xs[i] / AbsMax(xs)
    ensures r.Ok? ==> forall i :: 0 <= i < |xs| ==> -1.0 <= r.value[i] <= 1.0
    ensures r.Ok? ==> exists i :: 0 <= i < |xs| && (r.value[i] == 1.0 || r.value[i] == -1.0)
  {
    if xs == [] then Err(EmptySequence)
    else
      var m := AbsMax(xs);
      AbsMaxZero(xs);
      if m == 0.0 then Err(ZeroScale)
      else
        NormalizedReachesOne(xs);
        Ok(ScaleBy(xs, m))
  }

  /** Every sample divided by m, a bound on their magnitudes. */
  function ScaleBy(xs: seq<real>, m: real): (r: seq<real>)
    requires m > 0.0
    requires forall i :: 0 <= i < |xs| ==> -m <= xs[i] <= m
    ensures |r| == |xs|
    ensures forall i :: 0 <= i < |xs| ==> r[i] * m == xs[i] && -1.0 <= r[i] <= 1.0
  {
    var r := seq(|xs|, i requires 0 <= i < |xs| => xs[i] / m);
    assert forall i :: 0 <= i < |xs| ==> r[i] * m == xs[i] && -1.0 <= r[i] <= 1.0 by {
      forall i | 0 <= i < |xs| ensures r[i] * m == xs[i] && -1.0 <= r[i] <= 1.0 {
        DivideWithin(xs[i], m);
      }
    }
    r
  }

  /** The sample of largest magnitude is scaled to 1 or -1. */
  lemma ScaledReachesOne(xs: seq<real>, m: real, j: int)
    requires m > 0.0 && forall i :: 0 <= i < |xs| ==> -m <= xs[i] <= m
    requires 0 <= j < |xs| && (xs[j] == m || xs[j] == -m)
    ensures ScaleBy(xs, m)[j] == 1.0 || ScaleBy(xs, m)[j] == -1.0
  {
    var r := ScaleBy(xs, m);
    UnitScale(r[j], m);
  }

  lemma UnitScale(y: real, m: real)
    requires m > 0.0 && (y * m == m || y * m == -m)
    ensures y == 1.0 || y == -1.0
  {
    if y * m == m { assert (y - 1.0) * m == 0.0; } else { assert (y + 1.0) * m == 0.0; }
  }

  lemma NormalizedReachesOne(xs: seq<real>)
    requires |xs| > 0 && AbsMax(xs) != 0.0
    ensures AbsMax(xs) > 0.0
    ensures exists i :: 0 <= i < |xs| && (ScaleBy(xs, AbsMax(xs))[i] == 1.0 || ScaleBy(xs, AbsMax(xs))[i] == -1.0)
  {
    var m := AbsMax(xs);
    assert -m <= xs[0] <= m;
    var j :| 0 <= j < |xs| && (xs[j] == m || xs[j] == -m);
    ScaledReachesOne(xs, m, j);
  }

  /** The largest magnitude is zero exactly when every sample is. */
  lemma AbsMaxZero(xs: seq<real>)
    requires |xs| > 0
    ensures AbsMax(xs) == 0.0 <==> forall i :: 0 <= i < |xs| ==> xs[i] == 0.0
  {
  }

  lemma DivideWithin(x: real, m: real)
    requires m > 0.0 && -m <= x <= m
    ensures (x / m) * m == x && -1.0 <= x / m <= 1.0
  {
  }
}

/** The rock descriptor and the folds the stack builder computes over the
    rocks of a layer: the mean, the least and the greatest of the x (or y)
    values, and the nearest rock to a given x. */
module Rocks {
  import opened RockShape

  /** One rock, built once from all its fields.  y is the top of the bounding
      box; fill is the grey level used for all three colour channels. */
  datatype Rock = Rock(
    width: real,
    height: real,
    x: real,
    y: real,
    rotation: real,
    fill: int,
    layer: nat,
    points: seq<Vertex>)

  /** rs.map(r => r.x) */
  function Xs(rs: seq<Rock>): (xs: seq<real>)
    ensures |xs| == |rs| && forall i :: 0 <= i < |rs| ==> xs[i] == rs[i].x
  {
    seq(|rs|, i requires 0 <= i < |rs| => rs[i].x)
  }

  /** rs.map(r => r.y) */
  function Ys(rs: seq<Rock>): (ys: seq<real>)
    ensures |ys| == |rs| && forall i :: 0 <= i < |rs| ==> ys[i] == rs[i].y
  {
    seq(|rs|, i requires 0 <= i < |rs| => rs[i].y)
  }

  function Abs(a: real): real
  {
    if a < 0.0 then -a else a
  }

  /** xs.reduce((sum, x) => sum + x, 0), folded from the left. */
  function Sum(xs: seq<real>): real
  {
    if xs == [] then 0.0 else Sum(xs[..|xs| - 1]) + xs[|xs| - 1]
  }

  function Mean(xs: seq<real>): real
    requires 0 < |xs|
  {
    Sum(xs) / |xs| as real
  }

  /** Math.min(...xs) of a non-empty list: a member below or equal to all. */
  function Min(xs: seq<real>): (m: real)
    requires 0 < |xs|
    ensures m in xs
    ensures forall i :: 0 <= i < |xs| ==> m <= xs[i]
  {
    if |xs| == 1 then xs[0]
    else
      var rest := Min(xs[..|xs| - 1]);
      if xs[|xs| - 1] < rest then xs[|xs| - 1] else rest
  }

  /** Math.max(...xs) of a non-empty list: a member above or equal to all. */
  function Max(xs: seq<real>): (m: real)
    requires 0 < |xs|
    ensures m in xs
    ensures forall i :: 0 <= i < |xs| ==> xs[i] <= m
  {
    if |xs| == 1 then xs[0]
    else
      var rest := Max(xs[..|xs| - 1]);
      if rest < xs[|xs| - 1] then xs[|xs| - 1] else rest
  }

  /** A sum of values that all lie in [lo, hi] lies between |xs| * lo and |xs| * hi. */
  lemma {:induction false} SumBetween(xs: seq<real>, lo: real, hi: real)
    requires forall i :: 0 <= i < |xs| ==> lo <= xs[i] <= hi
    ensures |xs| as real * lo <= Sum(xs) <= |xs| as real * hi
  {
    if xs != [] {
      var init := xs[..|xs| - 1];
      assert forall i :: 0 <= i < |init| ==> init[i] == xs[i];
      SumBetween(init, lo, hi);
      assert |xs| as real * lo == |init| as real * lo + lo;
      assert |xs| as real * hi == |init| as real * hi + hi;
    }
  }

  /** Dividing n * lo <= s <= n * hi by a positive n. */
  lemma DivideBetween(s: real, n: real, lo: real, hi: real)
    requires 0.0 < n && n * lo <= s <= n * hi
    ensures lo <= s / n <= hi
  {
  }

  /** The mean of values that all lie in [lo, hi] lies in [lo, hi]. */
  lemma MeanBetween(xs: seq<real>, lo: real, hi: real)
    requires 0 < |xs|
    requires forall i :: 0 <= i < |xs| ==> lo <= xs[i] <= hi
    ensures lo <= Mean(xs) <= hi
  {
    SumBetween(xs, lo, hi);
    DivideBetween(Sum(xs), |xs| as real, lo, hi);
  }

  /** The mean of a non-empty list lies between its least and greatest member. */
  lemma MeanWithinSpan(xs: seq<real>)
    requires 0 < |xs|
    ensures Min(xs) <= Mean(xs) <= Max(xs)
  {
    MeanBetween(xs, Min(xs), Max(xs));
  }

  /** rs.reduce((closest, rock) =>
        Math.abs(rock.x - x) < Math.abs(closest.x - x) ? rock : closest),
      folded from the left and answered by index: the rock at the index is
      nearest to x, and every rock before it is strictly farther, so ties go
      to the earliest rock. */
  function Nearest(rs: seq<Rock>, x: real): (j: nat)
    requires 0 < |rs|
    ensures j < |rs|
    ensures forall i :: 0 <= i < |rs| ==> Abs(rs[j].x - x) <= Abs(rs[i].x - x)
    ensures forall i :: 0 <= i < j ==> Abs(rs[j].x - x) < Abs(rs[i].x - x)
  {
    if |rs| == 1 then 0
    else
      var closest := Nearest(rs[..|rs| - 1], x);
      if Abs(rs[|rs| - 1].x - x) < Abs(rs[closest].x - x) then |rs| - 1 else closest
  }
}

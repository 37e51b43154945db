/** The layer plan: how many layers the cairn has and how many rocks each
    layer holds, from the bottom layer (index 0) upwards. */
module LayerPlan {
  import opened Draws

  function MaxInt(a: int, b: int): int
  {
    if a < b then b else a
  }

  /** What the generator promises of every plan: 3 to 5 layers of 1 to 5
      rocks each, never more rocks in a layer than in the one below it, and
      exactly one rock on top. */
  ghost predicate WellFormed(plan: seq<nat>)
  {
    && 3 <= |plan| <= 5
    && (forall i :: 0 <= i < |plan| ==> 1 <= plan[i] <= 5)
    && (forall i, j :: 0 <= i <= j < |plan| ==> plan[j] <= plan[i])
    && plan[|plan| - 1] == 1
  }

  /** The rock counts of a plan added up. */
  function Total(plan: seq<nat>): nat
  {
    if plan == [] then 0 else Total(plan[..|plan| - 1]) + plan[|plan| - 1]
  }

  /** Math.max(1, top - Math.floor(u * 2)): both the layer's count and the
      next running maximum take 0 or 1 off a count, but never go below 1. */
  function Step(top: int, u: real): (c: int)
    requires 0.0 <= u < 1.0
    ensures MaxInt(1, top - 1) <= c <= MaxInt(1, top)
  {
    MaxInt(1, top - FloorScaled(u, 2))
  }

  /** The plan is the one the draws from index k determine: draw k fixes the
      layer count, draw k + 1 seeds the running maximum, and layer i below the
      top reads draw k + 2 + 2i for its own count and draw k + 3 + 2i for the
      maximum of the next layer. */
  ghost predicate FollowsDraws(rnd: Stream, k: nat, plan: seq<nat>)
    requires Valid(rnd)
  {
    && |plan| == 3 + FloorScaled(rnd(k), 3)
    && plan[|plan| - 1] == 1
    && plan[0] == Step(3 + FloorScaled(rnd(k + 1), 3), rnd(k + 2))
    && forall i :: 0 < i < |plan| - 1 ==>
         plan[i] == Step(Step(plan[i - 1], rnd(k + 1 + 2 * i)), rnd(k + 2 + 2 * i))
  }

  /** Plans the layers from the draws at k, k + 1, ...: the plan is the one
      those draws determine, and so has the promised shape. */
  method Generate(rnd: Stream, k: nat) returns (plan: seq<nat>, next: nat)
    requires Valid(rnd)
    ensures FollowsDraws(rnd, k, plan)
    ensures WellFormed(plan)
    ensures 2 <= plan[0]
    ensures forall i :: 0 <= i < |plan| - 2 ==> plan[i] <= plan[i + 1] + 2
    ensures next == k + 2 * |plan|
  {
    var numLayers := 3 + FloorScaled(rnd(k), 3);
    plan := [];
    var maxRocksInLayer := 3 + FloorScaled(rnd(k + 1), 3);
    var j := k + 2;
    var i := 0;
    while i < numLayers
      invariant 0 <= i <= numLayers
      invariant |plan| == i
      invariant j == k + 2 + 2 * (if i < numLayers then i else i - 1)
      invariant i == 0 ==> maxRocksInLayer == 3 + FloorScaled(rnd(k + 1), 3)
      invariant 0 < i < numLayers ==> maxRocksInLayer == Step(plan[i - 1], rnd(j - 1))
      invariant 0 < i ==> plan[0] == Step(3 + FloorScaled(rnd(k + 1), 3), rnd(k + 2))
      invariant forall m :: 0 < m < i && m < numLayers - 1 ==>
                  plan[m] == Step(Step(plan[m - 1], rnd(k + 1 + 2 * m)), rnd(k + 2 + 2 * m))
      invariant i == numLayers ==> plan[i - 1] == 1
    {
      if i == numLayers - 1 {
        // the top layer always has one rock
        plan := plan + [1];
      } else {
        var rocksInThisLayer := Step(maxRocksInLayer, rnd(j));
        plan := plan + [rocksInThisLayer];
        maxRocksInLayer := Step(rocksInThisLayer, rnd(j + 1));
        j := j + 2;
      }
      i := i + 1;
    }
    next := j;
    FollowsDrawsWellFormed(rnd, k, plan);
  }

  /** Every plan the draws can determine is well formed; moreover its bottom
      layer holds at least two rocks, and below the forced top layer each
      layer has at most two rocks fewer than the one beneath it. */
  lemma FollowsDrawsWellFormed(rnd: Stream, k: nat, plan: seq<nat>)
    requires Valid(rnd) && FollowsDraws(rnd, k, plan)
    ensures WellFormed(plan)
    ensures 2 <= plan[0]
    ensures forall i :: 0 <= i < |plan| - 2 ==> plan[i] <= plan[i + 1] + 2
  {
    var n := |plan|;
    assert 2 <= plan[0] <= 5;
    forall i | 0 < i < n - 1
      ensures 1 <= plan[i] <= plan[i - 1] <= plan[i] + 2
    {
      if 1 < i {
        assert plan[i - 1] == Step(Step(plan[i - 2], rnd(k + 2 * i - 1)), rnd(k + 2 * i));
      }
      assert plan[i] == Step(Step(plan[i - 1], rnd(k + 1 + 2 * i)), rnd(k + 2 + 2 * i));
    }
    BoundedByFirst(plan, n - 1);
    NonIncreasing(plan);
  }

  /** The first n counts of a plan, each at least 1 and at most the one before
      it, all lie in [1, plan[0]]. */
  lemma {:induction false} BoundedByFirst(plan: seq<nat>, n: nat)
    requires n <= |plan| && 0 < |plan| && 1 <= plan[0]
    requires forall i :: 0 < i < n ==> 1 <= plan[i] <= plan[i - 1]
    ensures forall i :: 0 <= i < n ==> 1 <= plan[i] <= plan[0]
  {
    if 1 < n {
      BoundedByFirst(plan, n - 1);
      var last := n - 1;
      assert plan[last] <= plan[last - 1] <= plan[0];
    }
  }

  /** A plan whose adjacent counts never increase never increases. */
  lemma NonIncreasing(plan: seq<nat>)
    requires forall i :: 0 < i < |plan| ==> plan[i] <= plan[i - 1]
    ensures forall i, j :: 0 <= i <= j < |plan| ==> plan[j] <= plan[i]
  {
    forall i, j | 0 <= i <= j < |plan|
      ensures plan[j] <= plan[i]
    {
      NonIncreasingFrom(plan, i, j);
    }
  }

  lemma {:induction false} NonIncreasingFrom(plan: seq<nat>, i: nat, j: nat)
    requires forall m :: 0 < m < |plan| ==> plan[m] <= plan[m - 1]
    requires i <= j < |plan|
    ensures plan[j] <= plan[i]
  {
    if i < j {
      NonIncreasingFrom(plan, i, j - 1);
    }
  }

  /** A planned cairn has between 4 and 21 rocks. */
  lemma {:induction false} TotalBounds(plan: seq<nat>)
    requires WellFormed(plan) && 2 <= plan[0]
    ensures |plan| + 1 <= Total(plan) <= 5 * (|plan| - 1) + 1
    ensures 4 <= Total(plan) <= 21
  {
    var init := plan[..|plan| - 1];
    assert forall i :: 0 <= i < |init| ==> init[i] == plan[i];
    TotalOfPrefix(init, plan[0]);
  }

  /** A non-empty plan whose first count is first and whose every count lies
      in [1, 5] adds up to between first + |plan| - 1 and 5 * |plan|. */
  lemma {:induction false} TotalOfPrefix(plan: seq<nat>, first: nat)
    requires 0 < |plan| && plan[0] == first
    requires forall i :: 0 <= i < |plan| ==> 1 <= plan[i] <= 5
    ensures first + |plan| - 1 <= Total(plan) <= 5 * |plan|
  {
    if |plan| > 1 {
      var init := plan[..|plan| - 1];
      assert forall i :: 0 <= i < |init| ==> init[i] == plan[i];
      TotalOfPrefix(init, first);
    }
  }

  /** Extending a prefix of the plan by one entry adds that entry's count. */
  lemma TotalStep(plan: seq<nat>, i: nat)
    requires i < |plan|
    ensures Total(plan[..i + 1]) == Total(plan[..i]) + plan[i]
  {
    assert plan[..i + 1][..i] == plan[..i];
  }

  /** The stream whose every draw is the midpoint 0.5. */
  const Midpoint: Stream := (i: nat) => 0.5

  /** With every draw at its midpoint 0.5 the draws determine the plan
      [3, 1, 1, 1]: there are 3 + floor(0.5 * 3) = 4 layers, and each step
      takes one off the running maximum until it reaches 1. */
  lemma MidpointFollows(plan: seq<nat>)
    requires Valid(Midpoint) && FollowsDraws(Midpoint, 0, plan)
    ensures plan == [3, 1, 1, 1]
  {
    assert FloorScaled(0.5, 3) == 1 && FloorScaled(0.5, 2) == 1;
    assert plan[0] == Step(4, 0.5) == 3;
    assert plan[1] == Step(Step(3, 0.5), 0.5) == 1;
  }

  /** Planning from the midpoint stream gives [3, 1, 1, 1]. */
  method MidpointPlan() returns (plan: seq<nat>)
    ensures plan == [3, 1, 1, 1]
  {
    var next;
    plan, next := Generate(Midpoint, 0);
    MidpointFollows(plan);
  }
}

/** The stack builder: plans the layers, then places the rocks of each layer,
    bottom to top, each upper rock pinned to a supporting rock of the layer
    beneath it. */
module StackBuilder {
  import opened Draws
  import opened RockShape
  import opened Rocks
  import opened LayerPlan

  /** The ground line the bottom layer stands on. */
  const BaseY: real := 320.0
  /** The horizontal centre of the scene. */
  const CenterX: real := 250.0

  /** 1 - layerIndex * (0.15 + 0.1u), recomputed for each layer from a
      fresh draw. */
  function SizeFactor(layerIndex: nat, u: real): real
    requires 0.0 <= u < 1.0
  {
    1.0 - layerIndex as real * Scaled(u, 0.15, 0.1)
  }

  /** The size factor is not compounded from the layer below: layer L is
      shrunk by between 15% and 25% times L, which keeps it positive on the
      at most five layers of a cairn. */
  lemma SizeFactorBounds(layerIndex: nat, u: real)
    requires layerIndex <= 4 && 0.0 <= u < 1.0
    ensures 0.0 < SizeFactor(layerIndex, u) <= 1.0
    ensures layerIndex == 0 ==> SizeFactor(layerIndex, u) == 1.0
    ensures 0 < layerIndex ==>
      1.0 - 0.25 * (layerIndex as real) < SizeFactor(layerIndex, u) <= 1.0 - 0.15 * (layerIndex as real)
  {
    // With the layer index fixed the bound is linear in u.
    if layerIndex == 0 {
    } else if layerIndex == 1 {
    } else if layerIndex == 2 {
    } else if layerIndex == 3 {
    } else {
      assert layerIndex == 4;
    }
  }

  /** Scaling [lo, hi) by a positive c. */
  lemma MulBetween(c: real, v: real, lo: real, hi: real)
    requires 0.0 < c && lo <= v < hi
    ensures c * lo <= c * v < c * hi
  {
  }

  // ----- placement rules -----

  /** The slot of rock i in a bottom layer of n rocks: the layer is n * 70 wide,
      centred on CenterX, with its n slots spread evenly over that width. */
  function BaseSlot(n: nat, i: nat): real
  {
    var totalWidth := n as real * 70.0;
    var startX := CenterX - totalWidth / 2.0;
    var spacing := totalWidth / MaxInt(n - 1, 1) as real;
    startX + i as real * spacing
  }

  /** The width over which a layer of several rocks is spread: the x-span of
      the layer beneath, or 100 when that layer holds a single rock. */
  function SectionWidth(prev: seq<Rock>): real
    requires 0 < |prev|
  {
    if 1 < |prev| then Max(Xs(prev)) - Min(Xs(prev)) else 100.0
  }

  /** The slot of rock i in an upper layer of n rocks: i / (n - 1) of the way
      across the section that starts at the leftmost rock beneath. */
  function UpperSlot(prev: seq<Rock>, n: nat, i: nat): real
    requires 0 < |prev|
  {
    Min(Xs(prev)) + (i as real / MaxInt(n - 1, 1) as real) * SectionWidth(prev)
  }

  /** What every rock of layer L is: tagged L, with a positive box, a grey
      level in [140, 240), and an outline around its centre
      (x, y + height / 2) fitted to its box. */
  ghost predicate Body(r: Rock, layerIndex: nat)
  {
    && r.layer == layerIndex
    && 0.0 < r.width && 0.0 < r.height
    && 140 <= r.fill < 240
    && Outline(r.points, r.x, r.y + r.height * 0.5, r.width, r.height)
  }

  /** Contact: the rock's bottom edge (y + height) is within [-3, 3) of its
      support's top edge. */
  ghost predicate Rests(r: Rock, support: Rock)
  {
    support.y - r.height - 3.0 <= r.y < support.y - r.height + 3.0
  }

  /** The size of a rock: a factor in [lo, hi) of the layer's base width times
      its size factor, with the layer's base proportions. */
  ghost predicate Sized(r: Rock, baseWidth: real, baseHeight: real, sizeFactor: real, lo: real, hi: real)
  {
    && (baseWidth * sizeFactor) * lo <= r.width < (baseWidth * sizeFactor) * hi
    && r.width * baseHeight == r.height * baseWidth
  }

  /** Bounds on the size factor of layer L: 1 - 0.25L and 1 - 0.15L. */
  function ShrinkLow(L: nat): real { 1.0 - 0.25 * L as real }
  function ShrinkHigh(L: nat): real { 1.0 - 0.15 * L as real }

  /** The band of a rock's own variation: [0.7, 1.3) at the bottom,
      [0.8, 1.2) above. */
  function VariationLow(L: nat): real { if L == 0 then 0.7 else 0.8 }
  function VariationHigh(L: nat): real { if L == 0 then 1.3 else 1.2 }

  /** The size rule of layer L: a base width in [50, 90) and a base height in
      [20, 45), shrunk by the layer's size factor and varied by the rock's
      own variation. */
  ghost predicate SizeBand(r: Rock, L: nat)
  {
    && 50.0 * ShrinkLow(L) * VariationLow(L) <= r.width < 90.0 * ShrinkHigh(L) * VariationHigh(L)
    && 20.0 * ShrinkLow(L) * VariationLow(L) <= r.height < 45.0 * ShrinkHigh(L) * VariationHigh(L)
  }

  ghost predicate LayerSized(layer: seq<Rock>, L: nat)
  {
    forall i :: 0 <= i < |layer| ==> SizeBand(layer[i], L)
  }

  /** Rock i of a bottom layer of n rocks standing on groundY: its bottom edge
      on the ground, turned by less than 12.5 degrees, and placed at the
      centre if it is alone, otherwise within 10 of its slot. */
  ghost predicate BaseRockPlaced(r: Rock, i: nat, n: nat, groundY: real)
  {
    && Body(r, 0)
    && -12.5 <= r.rotation < 12.5
    && r.y + r.height == groundY
    && if n == 1 then r.x == CenterX
       else BaseSlot(n, i) - 10.0 <= r.x < BaseSlot(n, i) + 10.0
  }

  /** Rock i of an upper layer L of n rocks over the layer prev: turned by less
      than 10 degrees, and resting on its support.  A lone rock lies within
      7.5 of the mean x of prev and is supported by the median-index rock
      prev[|prev| / 2]; otherwise the rock lies within 10 of its slot and is
      supported by the rock of prev nearest to it in x. */
  ghost predicate UpperRockPlaced(r: Rock, i: nat, n: nat, layerIndex: nat, prev: seq<Rock>)
    requires 0 < |prev|
  {
    && Body(r, layerIndex)
    && -10.0 <= r.rotation < 10.0
    && if n == 1 then
         && Mean(Xs(prev)) - 7.5 <= r.x < Mean(Xs(prev)) + 7.5
         && Rests(r, prev[|prev| / 2])
       else
         && UpperSlot(prev, n, i) - 10.0 <= r.x < UpperSlot(prev, n, i) + 10.0
         && Rests(r, prev[Nearest(prev, r.x)])
  }

  ghost predicate BaseLayer(layer: seq<Rock>, n: nat, groundY: real)
  {
    && |layer| == n
    && forall i :: 0 <= i < n ==> BaseRockPlaced(layer[i], i, n, groundY)
  }

  ghost predicate UpperLayer(layer: seq<Rock>, n: nat, layerIndex: nat, prev: seq<Rock>)
  {
    && 0 < |prev|
    && |layer| == n
    && forall i :: 0 <= i < n ==> UpperRockPlaced(layer[i], i, n, layerIndex, prev)
  }

  /** All rocks of a layer have the same proportions. */
  ghost predicate Proportional(layer: seq<Rock>)
  {
    forall i, j :: 0 <= i < |layer| && 0 <= j < |layer| ==>
      layer[i].width * layer[j].height == layer[j].width * layer[i].height
  }

  /** The layers one after another, bottom layer first. */
  function Flatten(layers: seq<seq<Rock>>): seq<Rock>
  {
    if layers == [] then [] else Flatten(layers[..|layers| - 1]) + layers[|layers| - 1]
  }

  // ----- the builder -----

  /** A rock whose width is baseWidth * sizeFactor * variation and whose
      height is baseHeight * sizeFactor * variation, for a variation in
      [lo, hi), is sized by that band and has a positive box. */
  lemma SizedBy(r: Rock, baseWidth: real, baseHeight: real, sizeFactor: real, variation: real, lo: real, hi: real)
    requires 0.0 < baseWidth && 0.0 < baseHeight && 0.0 < sizeFactor && 0.0 < lo <= variation < hi
    requires r.width == baseWidth * sizeFactor * variation
    requires r.height == baseHeight * sizeFactor * variation
    ensures 0.0 < r.width && 0.0 < r.height
    ensures Sized(r, baseWidth, baseHeight, sizeFactor, lo, hi)
  {
    MulBetween(baseWidth * sizeFactor, variation, lo, hi);
  }

  /** The tail that both placement rules share: draws the rock's rotation
      (spread over [-spin/2, spin/2)), then its grey level, then its outline
      around (x, y + height / 2), and assembles the rock. */
  method FinishRock(rnd: Stream, k: nat, width: real, height: real, x: real, y: real, spin: real, layerIndex: nat)
    returns (rock: Rock, next: nat)
    requires Valid(rnd) && 0.0 < spin
    ensures rock.width == width && rock.height == height && rock.x == x && rock.y == y
    ensures rock.layer == layerIndex
    ensures rock.rotation == Jitter(rnd(k), spin)
    ensures rock.fill == 140 + FloorScaled(rnd(k + 1), 100)
    ensures Outline(rock.points, x, y + height * 0.5, width, height)
    ensures next == k + 3 + 3 * |rock.points|
  {
    var rotation := Jitter(rnd(k), spin);
    var grayValue := 140 + FloorScaled(rnd(k + 1), 100);
    var points;
    points, next := Synthesize(rnd, k + 2, x, y + height * 0.5, width, height, rotation);
    rock := Rock(width, height, x, y, rotation, grayValue, layerIndex, points);
  }

  /** Places rock i of the bottom layer of n rocks on the ground line
      currentY.  Draws, in order: its size variation; its jitter unless it is
      alone; then its rotation, grey level and outline. */
  method PlaceBaseRock(rnd: Stream, k: nat, i: nat, n: nat, currentY: real,
                       baseWidth: real, baseHeight: real, sizeFactor: real)
    returns (rock: Rock, next: nat)
    requires Valid(rnd)
    requires 0.0 < baseWidth && 0.0 < baseHeight && 0.0 < sizeFactor
    ensures BaseRockPlaced(rock, i, n, currentY)
    ensures Sized(rock, baseWidth, baseHeight, sizeFactor, 0.7, 1.3)
    ensures n != 1 ==> rock.x == BaseSlot(n, i) + Jitter(rnd(k + 1), 20.0)
    ensures k < next
  {
    var j := k;
    var rockSizeVariation := Scaled(rnd(j), 0.7, 0.6);
    j := j + 1;
    var width := baseWidth * sizeFactor * rockSizeVariation;
    var height := baseHeight * sizeFactor * rockSizeVariation;
    var x: real;
    if n == 1 {
      x := CenterX;
    } else {
      x := BaseSlot(n, i) + Jitter(rnd(j), 20.0);
      j := j + 1;
    }
    var y := currentY - height;
    rock, next := FinishRock(rnd, j, width, height, x, y, 25.0, 0);
    SizedBy(rock, baseWidth, baseHeight, sizeFactor, rockSizeVariation, 0.7, 1.3);
  }

  /** Where an upper rock goes and which rock beneath carries it
      (src/components/Cairn.tsx:123-140), from the draw at index j. */
  method ChooseSupport(rnd: Stream, j: nat, i: nat, n: nat, prev: seq<Rock>)
    returns (x: real, supportingRock: Rock)
    requires Valid(rnd) && 0 < |prev|
    ensures n == 1 ==> x == Mean(Xs(prev)) + Jitter(rnd(j), 15.0) && supportingRock == prev[|prev| / 2]
    ensures n != 1 ==> x == UpperSlot(prev, n, i) + Jitter(rnd(j), 20.0) && supportingRock == prev[Nearest(prev, x)]
  {
    if n == 1 {
      // a lone rock sits over the centre of mass of the layer beneath
      var averageX := Mean(Xs(prev));
      x := averageX + Jitter(rnd(j), 15.0);
      supportingRock := prev[|prev| / 2];
    } else {
      // several rocks are spread over the layer beneath
      var slot := UpperSlot(prev, n, i);
      x := slot + Jitter(rnd(j), 20.0);
      supportingRock := prev[Nearest(prev, x)];
    }
  }

  /** Places rock i of upper layer layerIndex of n rocks over the layer prev.
      Draws, in order: its size variation; its jitter; the jitter of its
      contact; then its rotation, grey level and outline. */
  method PlaceUpperRock(rnd: Stream, k: nat, i: nat, n: nat, layerIndex: nat, prev: seq<Rock>,
                        baseWidth: real, baseHeight: real, sizeFactor: real)
    returns (rock: Rock, next: nat)
    requires Valid(rnd) && 0 < |prev|
    requires 0.0 < baseWidth && 0.0 < baseHeight && 0.0 < sizeFactor
    ensures UpperRockPlaced(rock, i, n, layerIndex, prev)
    ensures Sized(rock, baseWidth, baseHeight, sizeFactor, 0.8, 1.2)
    ensures n == 1 ==> rock.x == Mean(Xs(prev)) + Jitter(rnd(k + 1), 15.0)
    ensures n != 1 ==> rock.x == UpperSlot(prev, n, i) + Jitter(rnd(k + 1), 20.0)
    ensures k < next
  {
    var j := k;
    var rockSizeVariation := Scaled(rnd(j), 0.8, 0.4);
    j := j + 1;
    var width := baseWidth * sizeFactor * rockSizeVariation;
    var height := baseHeight * sizeFactor * rockSizeVariation;
    var x, supportingRock := ChooseSupport(rnd, j, i, n, prev);
    j := j + 1;
    var y := supportingRock.y - height + Scaled(rnd(j), -3.0, 6.0);
    rock, next := FinishRock(rnd, j + 1, width, height, x, y, 20.0, layerIndex);
    assert Rests(rock, supportingRock);
    SizedBy(rock, baseWidth, baseHeight, sizeFactor, rockSizeVariation, 0.8, 1.2);
  }

  /** With every draw at its midpoint 0.5 a lone upper rock sits exactly over
      the mean x of the layer beneath, resting on the median-index rock of that
      layer. */
  method MidpointLoneUpperRock(layerIndex: nat, prev: seq<Rock>,
                               baseWidth: real, baseHeight: real, sizeFactor: real)
    returns (rock: Rock)
    requires 0 < |prev|
    requires 0.0 < baseWidth && 0.0 < baseHeight && 0.0 < sizeFactor
    ensures rock.x == Mean(Xs(prev))
    ensures Rests(rock, prev[|prev| / 2])
  {
    var rnd: Stream := (i: nat) => 0.5;
    var next;
    rock, next := PlaceUpperRock(rnd, 0, 0, 1, layerIndex, prev, baseWidth, baseHeight, sizeFactor);
    assert Jitter(0.5, 15.0) == 0.0;
  }

  /** Places the n rocks of the bottom layer, left to right. */
  method PlaceBaseLayer(rnd: Stream, k: nat, n: nat, currentY: real,
                        baseWidth: real, baseHeight: real, sizeFactor: real)
    returns (layerRocks: seq<Rock>, next: nat)
    requires Valid(rnd)
    requires 0.0 < baseWidth && 0.0 < baseHeight && 0.0 < sizeFactor
    ensures BaseLayer(layerRocks, n, currentY)
    ensures forall i :: 0 <= i < n ==> Sized(layerRocks[i], baseWidth, baseHeight, sizeFactor, 0.7, 1.3)
    ensures k <= next
  {
    layerRocks := [];
    next := k;
    var i := 0;
    while i < n
      invariant 0 <= i <= n && |layerRocks| == i && k <= next
      invariant forall m :: 0 <= m < i ==> BaseRockPlaced(layerRocks[m], m, n, currentY)
      invariant forall m :: 0 <= m < i ==> Sized(layerRocks[m], baseWidth, baseHeight, sizeFactor, 0.7, 1.3)
    {
      var rock;
      rock, next := PlaceBaseRock(rnd, next, i, n, currentY, baseWidth, baseHeight, sizeFactor);
      layerRocks := layerRocks + [rock];
      i := i + 1;
    }
  }

  /** Places the n rocks of upper layer layerIndex over the layer prev, left to
      right; a layer over nothing is skipped (after its three layer draws,
      which the caller has taken). */
  method PlaceUpperLayer(rnd: Stream, k: nat, n: nat, layerIndex: nat, prev: seq<Rock>,
                         baseWidth: real, baseHeight: real, sizeFactor: real)
    returns (layerRocks: seq<Rock>, skipped: bool, next: nat)
    requires Valid(rnd)
    requires 0.0 < baseWidth && 0.0 < baseHeight && 0.0 < sizeFactor
    ensures skipped <==> |prev| == 0
    ensures skipped ==> layerRocks == [] && next == k
    ensures !skipped ==> UpperLayer(layerRocks, n, layerIndex, prev)
    ensures !skipped ==> forall i :: 0 <= i < n ==> Sized(layerRocks[i], baseWidth, baseHeight, sizeFactor, 0.8, 1.2)
    ensures k <= next
  {
    layerRocks := [];
    next := k;
    if |prev| == 0 {
      skipped := true;
      return;
    }
    skipped := false;
    var i := 0;
    while i < n
      invariant 0 <= i <= n && |layerRocks| == i && k <= next
      invariant forall m :: 0 <= m < i ==> UpperRockPlaced(layerRocks[m], m, n, layerIndex, prev)
      invariant forall m :: 0 <= m < i ==> Sized(layerRocks[m], baseWidth, baseHeight, sizeFactor, 0.8, 1.2)
    {
      var rock;
      rock, next := PlaceUpperRock(rnd, next, i, n, layerIndex, prev, baseWidth, baseHeight, sizeFactor);
      layerRocks := layerRocks + [rock];
      i := i + 1;
    }
  }

  /** Rocks sized from the same base width and height have the same
      proportions. */
  lemma SizedProportional(layer: seq<Rock>, baseWidth: real, baseHeight: real, sizeFactor: real, lo: real, hi: real)
    requires 0.0 < baseWidth
    requires forall i :: 0 <= i < |layer| ==> Sized(layer[i], baseWidth, baseHeight, sizeFactor, lo, hi)
    ensures Proportional(layer)
  {
  }

  /** A rock of one layer's proportions keeps the width band in its height:
      the base height times the same factor and variation band. */
  lemma HeightBand(w: real, h: real, baseWidth: real, baseHeight: real, c: real, lo: real, hi: real)
    requires 0.0 < baseWidth && 0.0 < baseHeight
    requires (baseWidth * c) * lo <= w < (baseWidth * c) * hi
    requires w * baseHeight == h * baseWidth
    ensures (baseHeight * c) * lo <= h < (baseHeight * c) * hi
  {
    assert ((baseHeight * c) * lo) * baseWidth == ((baseWidth * c) * lo) * baseHeight;
    assert ((baseHeight * c) * hi) * baseWidth == ((baseWidth * c) * hi) * baseHeight;
    MulBetween(baseHeight, w, (baseWidth * c) * lo, (baseWidth * c) * hi);
  }

  /** A size b * f * v with b in [bLo, bHi), f in [fLo, fHi] and v in
      [lo, hi) lies in [bLo * fLo * lo, bHi * fHi * hi). */
  lemma ProductBand(b: real, bLo: real, bHi: real, f: real, fLo: real, fHi: real, lo: real, hi: real, w: real)
    requires 0.0 <= bLo <= b < bHi && 0.0 <= fLo <= f <= fHi && 0.0 < f && 0.0 < lo < hi
    requires (b * f) * lo <= w < (b * f) * hi
    ensures bLo * fLo * lo <= w < bHi * fHi * hi
  {
    assert bLo * fLo <= b * f by {
      assert bLo * fLo <= b * fLo;
    }
    assert b * f < bHi * fHi by {
      assert b * f < bHi * f;
    }
  }

  /** A rock sized by the rule of layer L, from a base width in [50, 90), a
      base height in [20, 45) and a size factor within the layer's bounds,
      lies in the layer's size band. */
  lemma SizedInBand(r: Rock, baseWidth: real, baseHeight: real, sizeFactor: real, L: nat)
    requires L <= 4
    requires 50.0 <= baseWidth < 90.0 && 20.0 <= baseHeight < 45.0
    requires 0.0 < sizeFactor && ShrinkLow(L) <= sizeFactor <= ShrinkHigh(L)
    requires Sized(r, baseWidth, baseHeight, sizeFactor, VariationLow(L), VariationHigh(L))
    ensures SizeBand(r, L)
  {
    var lo, hi := VariationLow(L), VariationHigh(L);
    assert 0.0 < lo < hi && 0.0 <= ShrinkLow(L);
    HeightBand(r.width, r.height, baseWidth, baseHeight, sizeFactor, lo, hi);
    ProductBand(baseWidth, 50.0, 90.0, sizeFactor, ShrinkLow(L), ShrinkHigh(L), lo, hi, r.width);
    ProductBand(baseHeight, 20.0, 45.0, sizeFactor, ShrinkLow(L), ShrinkHigh(L), lo, hi, r.height);
  }

  /** Every rock of the layer at index L of the stack is tagged L. */
  ghost predicate Tagged(layers: seq<seq<Rock>>)
  {
    forall L, i :: 0 <= L < |layers| && 0 <= i < |layers[L]| ==> layers[L][i].layer == L
  }

  /** Layers tagged by their index flatten to a list whose layer tags never
      decrease and stay below the number of layers. */
  lemma {:induction false} FlattenOrdered(layers: seq<seq<Rock>>)
    requires Tagged(layers)
    ensures forall a :: 0 <= a < |Flatten(layers)| ==> Flatten(layers)[a].layer < |layers|
    ensures forall a, b :: 0 <= a <= b < |Flatten(layers)| ==> Flatten(layers)[a].layer <= Flatten(layers)[b].layer
  {
    if layers != [] {
      var init, last := layers[..|layers| - 1], layers[|layers| - 1];
      assert Tagged(init) by {
        forall L, i | 0 <= L < |init| && 0 <= i < |init[L]|
          ensures init[L][i].layer == L
        {
          assert init[L] == layers[L];
        }
      }
      FlattenOrdered(init);
      var front := Flatten(init);
      assert Flatten(layers) == front + last;
      forall a | 0 <= a < |Flatten(layers)|
        ensures Flatten(layers)[a].layer == (if a < |front| then front[a].layer else |init|)
      {
        if |front| <= a {
          assert Flatten(layers)[a] == last[a - |front|];
        }
      }
    }
  }

  lemma FlattenAppend(layers: seq<seq<Rock>>, layer: seq<Rock>)
    ensures Flatten(layers + [layer]) == Flatten(layers) + layer
  {
  }

  /** The layers built so far from the plan: each the size its plan entry
      says, the bottom one on the ground line, each upper one over the layer
      beneath it, all of one proportion and in the size band within a layer,
      and tagged by index. */
  ghost predicate Stacked(layers: seq<seq<Rock>>, plan: seq<nat>)
  {
    && |layers| <= |plan|
    && (forall L :: 0 <= L < |layers| ==> |layers[L]| == plan[L])
    && (0 < |layers| ==> BaseLayer(layers[0], plan[0], BaseY))
    && (forall L :: 1 <= L < |layers| ==> UpperLayer(layers[L], plan[L], L, layers[L - 1]))
    && (forall L :: 0 <= L < |layers| ==> Proportional(layers[L]))
    && (forall L :: 0 <= L < |layers| ==> LayerSized(layers[L], L))
    && Tagged(layers)
  }

  /** A layer placed by the rules for its position extends the stack. */
  lemma StackedAppend(layers: seq<seq<Rock>>, plan: seq<nat>, layer: seq<Rock>)
    requires Stacked(layers, plan) && |layers| < |plan|
    requires |layers| == 0 ==> BaseLayer(layer, plan[0], BaseY)
    requires 0 < |layers| ==> UpperLayer(layer, plan[|layers|], |layers|, layers[|layers| - 1])
    requires Proportional(layer) && LayerSized(layer, |layers|)
    ensures Stacked(layers + [layer], plan)
  {
  }

  /** One pass of the layer loop: draws the layer's size factor, base width
      and base height, then places its n rocks, the bottom layer on
      currentY and an upper layer over prev.  An upper layer over an empty
      prev is skipped and draws nothing more. */
  method PlaceLayer(rnd: Stream, k: nat, n: nat, layerIndex: nat, prev: seq<Rock>, currentY: real)
    returns (layerRocks: seq<Rock>, skipped: bool, next: nat)
    requires Valid(rnd) && layerIndex <= 4
    ensures layerIndex == 0 ==> !skipped && BaseLayer(layerRocks, n, currentY)
    ensures 0 < layerIndex ==> (skipped <==> |prev| == 0)
    ensures 0 < layerIndex && !skipped ==> UpperLayer(layerRocks, n, layerIndex, prev)
    ensures !skipped ==> Proportional(layerRocks)
    ensures !skipped ==> LayerSized(layerRocks, layerIndex)
    ensures k + 3 <= next
  {
    var sizeFactor := SizeFactor(layerIndex, rnd(k));
    SizeFactorBounds(layerIndex, rnd(k));
    assert ShrinkLow(layerIndex) <= sizeFactor <= ShrinkHigh(layerIndex);
    var baseWidth := Scaled(rnd(k + 1), 50.0, 40.0);
    var baseHeight := Scaled(rnd(k + 2), 20.0, 25.0);
    skipped := false;
    if layerIndex == 0 {
      layerRocks, next := PlaceBaseLayer(rnd, k + 3, n, currentY, baseWidth, baseHeight, sizeFactor);
      SizedProportional(layerRocks, baseWidth, baseHeight, sizeFactor, 0.7, 1.3);
      forall i | 0 <= i < |layerRocks|
        ensures SizeBand(layerRocks[i], layerIndex)
      {
        SizedInBand(layerRocks[i], baseWidth, baseHeight, sizeFactor, layerIndex);
      }
    } else {
      layerRocks, skipped, next := PlaceUpperLayer(rnd, k + 3, n, layerIndex, prev,
                                                   baseWidth, baseHeight, sizeFactor);
      if !skipped {
        SizedProportional(layerRocks, baseWidth, baseHeight, sizeFactor, 0.8, 1.2);
        forall i | 0 <= i < |layerRocks|
          ensures SizeBand(layerRocks[i], layerIndex)
        {
          SizedInBand(layerRocks[i], baseWidth, baseHeight, sizeFactor, layerIndex);
        }
      }
    }
  }

  /** Builds a cairn from the draws rnd(0), rnd(1), ...: plans the layers,
      then places them bottom to top.  Each layer first draws its size
      factor, base width and base height.  The rocks come out layer by layer,
      every layer the size its plan entry says (so the guard against a layer
      over nothing never fires), the bottom layer standing on the ground line
      BaseY and every upper layer placed over the one below it.  After the
      last layer, currentY is 2 above the highest top edge of that layer. */
  method GenerateCairn(rnd: Stream)
    returns (rocks: seq<Rock>, layerStructure: seq<nat>, currentY: real, ghost layers: seq<seq<Rock>>)
    requires Valid(rnd)
    ensures LayerPlan.FollowsDraws(rnd, 0, layerStructure)
    ensures LayerPlan.WellFormed(layerStructure)
    ensures |layers| == |layerStructure| && rocks == Flatten(layers)
    ensures |rocks| == LayerPlan.Total(layerStructure)
    ensures Stacked(layers, layerStructure)
    ensures forall a, b :: 0 <= a <= b < |rocks| ==> rocks[a].layer <= rocks[b].layer
    ensures forall a :: 0 <= a < |rocks| ==> 0.0 < rocks[a].width && 0.0 < rocks[a].height
    ensures forall a :: 0 <= a < |rocks| ==> SizeBand(rocks[a], rocks[a].layer)
    ensures 0 < |layers[|layers| - 1]| && currentY == Min(Ys(layers[|layers| - 1])) - 2.0
  {
    var newRocks: seq<Rock> := [];
    var k;
    layerStructure, k := LayerPlan.Generate(rnd, 0);
    currentY := BaseY;
    var previousLayerRocks: seq<Rock> := [];
    layers := [];
    var layerIndex := 0;
    while layerIndex < |layerStructure|
      invariant 0 <= layerIndex <= |layerStructure|
      invariant |layers| == layerIndex
      invariant newRocks == Flatten(layers)
      invariant |newRocks| == LayerPlan.Total(layerStructure[..layerIndex])
      invariant layerIndex == 0 ==> currentY == BaseY && previousLayerRocks == []
      invariant 0 < layerIndex ==> previousLayerRocks == layers[layerIndex - 1]
      invariant 0 < layerIndex ==> 0 < |previousLayerRocks| && currentY == Min(Ys(previousLayerRocks)) - 2.0
      invariant Stacked(layers, layerStructure)
    {
      var rocksInLayer := layerStructure[layerIndex];
      var layerRocks, skipped;
      layerRocks, skipped, k := PlaceLayer(rnd, k, rocksInLayer, layerIndex, previousLayerRocks, currentY);
      if !skipped {
        StackedAppend(layers, layerStructure, layerRocks);
        FlattenAppend(layers, layerRocks);
        newRocks := newRocks + layerRocks;
        previousLayerRocks := layerRocks;
        currentY := Min(Ys(layerRocks)) - 2.0;
        layers := layers + [layerRocks];
      }
      LayerPlan.TotalStep(layerStructure, layerIndex);
      layerIndex := layerIndex + 1;
    }
    assert layerStructure[..layerIndex] == layerStructure;
    rocks := newRocks;
    FlattenOrdered(layers);
    StackedRocksShaped(layers, layerStructure);
    assert 0 < |layers[|layers| - 1]|;
  }

  /** A cairn built from the midpoint stream has the plan [3, 1, 1, 1], so
      six rocks over four layers. */
  method MidpointCairn() returns (rocks: seq<Rock>, layerStructure: seq<nat>)
    ensures layerStructure == [3, 1, 1, 1] && |rocks| == 6
  {
    var currentY;
    ghost var layers;
    rocks, layerStructure, currentY, layers := GenerateCairn(Midpoint);
    MidpointFollows(layerStructure);
    assert Total(layerStructure) == 6 by {
      var plan: seq<nat> := [3, 1, 1, 1];
      assert plan[..3] == [3, 1, 1] && plan[..3][..2] == [3, 1] && plan[..3][..2][..1] == [3];
      assert Total([3]) == 3;
      assert Total([3, 1]) == 4;
      assert Total([3, 1, 1]) == 5;
    }
  }

  // ----- properties of a built cairn -----

  /** Where rock a of the flattened stack comes from. */
  lemma {:induction false} FlattenIndex(layers: seq<seq<Rock>>, a: nat) returns (L: nat, i: nat)
    requires a < |Flatten(layers)|
    ensures L < |layers| && i < |layers[L]| && Flatten(layers)[a] == layers[L][i]
  {
    var init := layers[..|layers| - 1];
    var front := Flatten(init);
    if a < |front| {
      L, i := FlattenIndex(init, a);
      assert init[L] == layers[L];
    } else {
      L, i := |layers| - 1, a - |front|;
    }
  }

  /** Every rock of a built stack has a positive box, a grey level in
      [140, 240), a layer tag naming one of the layers, and a size within the
      band of its layer. */
  lemma StackedRocksShaped(layers: seq<seq<Rock>>, plan: seq<nat>)
    requires Stacked(layers, plan)
    ensures forall a :: 0 <= a < |Flatten(layers)| ==>
      && 0.0 < Flatten(layers)[a].width && 0.0 < Flatten(layers)[a].height
      && 140 <= Flatten(layers)[a].fill < 240
      && Flatten(layers)[a].layer < |layers|
      && SizeBand(Flatten(layers)[a], Flatten(layers)[a].layer)
  {
    forall a | 0 <= a < |Flatten(layers)|
      ensures 0.0 < Flatten(layers)[a].width && 0.0 < Flatten(layers)[a].height
      ensures 140 <= Flatten(layers)[a].fill < 240
      ensures Flatten(layers)[a].layer < |layers|
      ensures SizeBand(Flatten(layers)[a], Flatten(layers)[a].layer)
    {
      var L, i := FlattenIndex(layers, a);
      if L == 0 {
        assert BaseRockPlaced(layers[0][i], i, plan[0], BaseY);
      } else {
        assert UpperRockPlaced(layers[L][i], i, plan[L], L, layers[L - 1]);
      }
    }
  }

  /** A bottom layer of several rocks runs left to right in placement order,
      the centres of any two at least 50 apart: slots are at least 70 apart
      and each rock is within 10 of its slot. */
  lemma BaseRocksAscending(layer: seq<Rock>, n: nat, groundY: real)
    requires BaseLayer(layer, n, groundY) && 1 < n
    ensures forall i, j :: 0 <= i < j < n ==> layer[i].x + 50.0 < layer[j].x
  {
    var spacing := (n as real * 70.0) / (n - 1) as real;
    assert spacing >= 70.0 by { SpacingAtLeast(n); }
    forall i, j | 0 <= i < j < n
      ensures layer[i].x + 50.0 < layer[j].x
    {
      assert BaseRockPlaced(layer[i], i, n, groundY);
      assert BaseRockPlaced(layer[j], j, n, groundY);
      assert BaseSlot(n, j) - BaseSlot(n, i) == (j - i) as real * spacing;
      MulBetween(spacing, (j - i) as real, 1.0, (j - i + 1) as real);
    }
  }

  lemma SpacingAtLeast(n: nat)
    requires 1 < n
    ensures (n as real * 70.0) / (n - 1) as real >= 70.0
  {
  }

  /** The slot of rock i of n over a layer of several rocks lies within that
      layer's x-span. */
  lemma UpperSlotWithinSpan(prev: seq<Rock>, n: nat, i: nat)
    requires 1 < |prev| && i < n
    ensures Min(Xs(prev)) <= UpperSlot(prev, n, i) <= Max(Xs(prev))
  {
    var xs := Xs(prev);
    var lo, hi := Min(xs), Max(xs);
    assert lo <= xs[0] <= hi;
    var d := MaxInt(n - 1, 1);
    var t := i as real / d as real;
    UnitFraction(i, d);
    assert UpperSlot(prev, n, i) == lo + t * (hi - lo);
    Between(lo, hi - lo, t, UpperSlot(prev, n, i));
  }

  lemma UnitFraction(i: nat, d: int)
    requires 0 < d && i <= d
    ensures 0.0 <= i as real / d as real <= 1.0
  {
  }

  /** A point s that is t of the way along [lo, lo + w], for t in [0, 1],
      lies in that interval. */
  lemma Between(lo: real, w: real, t: real, s: real)
    requires 0.0 <= w && 0.0 <= t <= 1.0 && s == lo + t * w
    ensures lo <= s <= lo + w
  {
    assert lo + w - s == (1.0 - t) * w;
  }

  /** An upper layer no larger than the layer beneath it lies over that
      layer: every rock's x is within 10 of the x-span of the rocks below. */
  lemma UpperRocksOverBelow(layer: seq<Rock>, n: nat, layerIndex: nat, prev: seq<Rock>)
    requires UpperLayer(layer, n, layerIndex, prev) && n <= |prev|
    ensures forall i :: 0 <= i < n ==> Min(Xs(prev)) - 10.0 <= layer[i].x < Max(Xs(prev)) + 10.0
  {
    forall i | 0 <= i < n
      ensures Min(Xs(prev)) - 10.0 <= layer[i].x < Max(Xs(prev)) + 10.0
    {
      assert UpperRockPlaced(layer[i], i, n, layerIndex, prev);
      if n == 1 {
        MeanWithinSpan(Xs(prev));
      } else {
        UpperSlotWithinSpan(prev, n, i);
      }
    }
  }

  /** In a cairn built from a well-formed plan every upper rock lies over the
      layer beneath it. */
  lemma CairnRocksOverBelow(layers: seq<seq<Rock>>, plan: seq<nat>)
    requires Stacked(layers, plan) && LayerPlan.WellFormed(plan)
    ensures forall L, i :: 1 <= L < |layers| && 0 <= i < |layers[L]| ==>
      Min(Xs(layers[L - 1])) - 10.0 <= layers[L][i].x < Max(Xs(layers[L - 1])) + 10.0
  {
    forall L | 1 <= L < |layers|
      ensures forall i :: 0 <= i < |layers[L]| ==>
        Min(Xs(layers[L - 1])) - 10.0 <= layers[L][i].x < Max(Xs(layers[L - 1])) + 10.0
    {
      assert plan[L] <= plan[L - 1];
      UpperRocksOverBelow(layers[L], plan[L], L, layers[L - 1]);
    }
  }
}

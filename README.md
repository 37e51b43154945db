# Cairn generator — a Dafny model

The cairn page draws a small stack of irregular grey rocks. Each time the
component mounts, `generateCairn` does three things:

- it picks a random layer plan;
- it places the rocks layer by layer, bottom to top;
- it gives every rock an irregular polygon outline.

Each upper rock is pinned to a supporting rock in the layer beneath it, so
nothing floats. This project models that generator and proves what it
guarantees about the plan, the sizes, the placement and the contact between
layers.

The modules follow the generator's structure:

- `Draws` — the source of randomness. Every `Math.random()` call becomes the
  next entry of a stream `rnd: nat -> real` whose entries lie in [0, 1). Each
  method takes the index of its first draw and returns the index after its
  last one, so the order of the draws is exactly the source's.
- `RockShape` — `generateIrregularRockShape`. It picks 8 to 11 vertices; each
  gets an angle near its evenly spaced base angle and two radii in
  [0.35, 0.65) of the box's width and height.
- `Rocks` — the rock record, plus the folds the builder uses over the rocks of
  a layer: the x and y projections, sum, mean, minimum, maximum, and the
  nearest rock (the `reduce` that picks a support).
- `LayerPlan` — the random layer plan (how many rocks per layer).
- `StackBuilder` — the layer loop and the two placement rules (bottom layer
  and upper layers). It also proves what holds of a finished cairn.

## Model

| member | source | states |
|---|---|---|
| Draws.FloorScaled | src/components/Cairn.tsx:50 | `Math.floor(u * m)` for a draw u lies in [0, m) |
| Draws.Scaled | src/components/Cairn.tsx:75-76 | `lo + u * span` lies in [lo, lo + span) |
| Draws.Jitter | src/components/Cairn.tsx:92 | `(u - 0.5) * w` lies in [-w/2, w/2) |
| RockShape.NumPoints | src/components/Cairn.tsx:19 | an outline has between 8 and 11 vertices |
| RockShape.BaseAngle | src/components/Cairn.tsx:23 | the even angle (i / n)·2π of vertex i; its spacing is stated in StepExceedsNoise |
| RockShape.RadiusWithin | src/components/Cairn.tsx:26-29 | half a positive size scaled by a variation in [0.7, 1.3) lies in [0.35, 0.65) of the size |
| RockShape.Synthesize | src/components/Cairn.tsx:18-42 | the outline has the vertex count drawn first. Vertex i is around the given centre, its angle within ±0.15 of 2πi/n, each radius within [0.35, 0.65) of the box side. It uses exactly 1 + 3n draws |
| RockShape.StepExceedsNoise | src/components/Cairn.tsx:23 | base angles of distinct vertices differ by at least 2π/n and at most 2π − 2π/n, and 2π/n exceeds the total angular noise 0.3 |
| RockShape.OutlineAnglesIncrease | src/components/Cairn.tsx:22-33 | in any outline the angles the vertices are drawn at strictly increase within one turn of the first vertex's angle |
| Rocks.Xs | src/components/Cairn.tsx:131 | the x coordinates of the rocks, in order |
| Rocks.Ys | src/components/Cairn.tsx:170 | the y coordinates of the rocks, in order |
| Rocks.Min | src/components/Cairn.tsx:132 | `Math.min(...xs)` is an element of xs and no element is smaller |
| Rocks.Max | src/components/Cairn.tsx:131 | `Math.max(...xs)` is an element of xs and no element is larger |
| Rocks.Sum | src/components/Cairn.tsx:125 | the left-fold `reduce` sum starting at 0; its bounds are stated in SumBetween |
| Rocks.Mean | src/components/Cairn.tsx:125 | the sum divided by the count; its bounds are stated in MeanBetween and MeanWithinSpan |
| Rocks.SumBetween | src/components/Cairn.tsx:125 | the `reduce` sum of n values in [lo, hi] lies in [n·lo, n·hi] |
| Rocks.MeanBetween | src/components/Cairn.tsx:125 | the mean of values in [lo, hi] lies in [lo, hi] |
| Rocks.MeanWithinSpan | src/components/Cairn.tsx:125 | the centre of mass of a layer lies between its leftmost and rightmost x |
| Rocks.Nearest | src/components/Cairn.tsx:137-139 | the support `reduce` picks a rock whose x is nearest the given x; among equally near rocks it picks the first |
| LayerPlan.Step | src/components/Cairn.tsx:61-63 | `Math.max(1, top - Math.floor(2u))` is top or top − 1, and never below 1 |
| LayerPlan.Generate | src/components/Cairn.tsx:50-65 | the plan follows the draws exactly. It has 3 to 5 layers, every count in [1, 5], counts never increase, the top count is 1, the bottom count is at least 2, and neighbours below the top differ by at most 2. It uses 2 draws per layer |
| LayerPlan.FollowsDrawsWellFormed | src/components/Cairn.tsx:54-65 | any plan the draws can produce is well formed as above |
| LayerPlan.BoundedByFirst | src/components/Cairn.tsx:54-63 | every count up to a point stays in [1, first count] |
| LayerPlan.NonIncreasing | src/components/Cairn.tsx:60-63 | counts that never grow from one layer to the next never grow between any two layers |
| LayerPlan.TotalBounds | src/components/Cairn.tsx:50-65 | a cairn of n layers has between n + 1 and 5(n − 1) + 1 rocks, so between 4 and 21 |
| LayerPlan.TotalOfPrefix | src/components/Cairn.tsx:54-63 | counts in [1, 5] starting at c sum to between c + n − 1 and 5n |
| LayerPlan.TotalStep | src/components/Cairn.tsx:166 | appending a layer adds its count to the running total |
| LayerPlan.MidpointPlan | src/components/Cairn.tsx:50-65 | with every draw at 0.5 the plan is [3, 1, 1, 1] |
| LayerPlan.MidpointFollows | src/components/Cairn.tsx:50-65 | the only plan the all-0.5 draws determine is [3, 1, 1, 1] |
| StackBuilder.SizeFactorBounds | src/components/Cairn.tsx:74 | layer 0 has size factor 1. Layer L shrinks by between 15% and 25% times L, not compounded, and the factor stays positive on up to five layers |
| StackBuilder.SizeFactor | src/components/Cairn.tsx:74 | 1 − L·(0.15 + 0.1u) of the layer's first draw; its bounds are stated in SizeFactorBounds |
| StackBuilder.BaseSlot | src/components/Cairn.tsx:80-89 | slot i of a bottom layer of n rocks: startX = 250 − 35n plus i spacings of 70n / max(n − 1, 1); its spacing is stated in BaseRocksAscending |
| StackBuilder.SectionWidth | src/components/Cairn.tsx:130-131 | the x-span max − min of the layer beneath, or 100 over a single rock; used by UpperSlotWithinSpan |
| StackBuilder.UpperSlot | src/components/Cairn.tsx:132-134 | the section start plus i / max(n − 1, 1) of the section width; stated within the x-span below in UpperSlotWithinSpan |
| StackBuilder.Flatten | src/components/Cairn.tsx:166 | the layers' rocks one after another; stated in FlattenAppend, FlattenIndex and FlattenOrdered |
| StackBuilder.SizedBy | src/components/Cairn.tsx:84-86 | a rock sized base × factor × variation has a positive box, width within the variation band, and the layer's aspect ratio |
| StackBuilder.SizedInBand | src/components/Cairn.tsx:74-118 | a rock of layer L sized from a base width in [50, 90), a base height in [20, 45) and a size factor in [1 − 0.25L, 1 − 0.15L] has width in [50(1 − 0.25L)·lo, 90(1 − 0.15L)·hi) and height in [20(1 − 0.25L)·lo, 45(1 − 0.15L)·hi), where lo, hi are 0.7, 1.3 at the bottom and 0.8, 1.2 above |
| StackBuilder.FinishRock | src/components/Cairn.tsx:92-109 | the rock keeps the box and position it is given and its layer tag. Its rotation is the jitter of the first draw, its grey is 140 + ⌊100u⌋ of the second, its outline is fitted to the box around (x, y + height/2), and it takes exactly 3 + 3·(vertex count) draws |
| StackBuilder.PlaceBaseRock | src/components/Cairn.tsx:83-109 | a bottom rock stands on the ground line (y + height = currentY). A lone rock is at x = 250; otherwise x is its slot plus the ±10 jitter of the draw after the size variation. Its width is base × factor × [0.7, 1.3) with the layer's aspect ratio. Rotation is within ±12.5, grey in [140, 240), the outline fits its box, and it is tagged layer 0 |
| StackBuilder.ChooseSupport | src/components/Cairn.tsx:123-140 | a lone upper rock goes to the mean x below plus the ±7.5 jitter of the draw, on the rock at index ⌊n/2⌋; otherwise to its slot plus the ±10 jitter, on the rock nearest that x |
| StackBuilder.PlaceUpperRock | src/components/Cairn.tsx:115-162 | a lone upper rock is at the mean x below plus the ±7.5 jitter of the draw after the size variation, and rests on the rock at index ⌊n/2⌋. Otherwise it is at its slot plus the ±10 jitter of that draw and rests on the nearest rock below, earliest on ties. Resting means y = support.y − height + e with e in [−3, 3). Its width is base × factor × [0.8, 1.2) with the layer's aspect ratio. Rotation is within ±10 |
| StackBuilder.MidpointLoneUpperRock | src/components/Cairn.tsx:123-127 | with every draw at 0.5 a lone upper rock sits exactly at the mean x of the layer beneath and rests on its rock at index ⌊n/2⌋ |
| StackBuilder.PlaceBaseLayer | src/components/Cairn.tsx:78-110 | the bottom layer has exactly n rocks, each placed by the bottom-layer rule |
| StackBuilder.PlaceUpperLayer | src/components/Cairn.tsx:111-164 | an upper layer over nothing is skipped. Otherwise it has exactly n rocks, each placed by the upper-layer rule over the layer beneath |
| StackBuilder.SizedProportional | src/components/Cairn.tsx:84-86 | all rocks in a layer share one width-to-height ratio |
| StackBuilder.PlaceLayer | src/components/Cairn.tsx:70-164 | one pass of the layer loop: the bottom layer is never skipped, and an upper layer is skipped exactly when the layer beneath is empty. A placed layer keeps one aspect ratio and every rock is in the size band of its layer (as for SizedInBand) |
| StackBuilder.GenerateCairn | src/components/Cairn.tsx:44-175 | the plan is the one the draws determine (as for LayerPlan.Generate), and so is well formed. Layer L has exactly plan[L] rocks, so the skip never fires. The rock list is the layers' concatenation, with plan-total rocks and layer tags that never decrease. Every rock has a positive box and a width and height in the size band of its layer (as for SizedInBand). Every layer was placed by its rule. Afterwards currentY is 2 above the highest rock of the top layer |
| StackBuilder.MidpointCairn | src/components/Cairn.tsx:44-175 | with every draw at 0.5 the cairn has the plan [3, 1, 1, 1] and six rocks |
| StackBuilder.StackedAppend | src/components/Cairn.tsx:166-171 | a layer placed by its rule extends a correctly built stack |
| StackBuilder.FlattenAppend | src/components/Cairn.tsx:166 | pushing a layer appends its rocks to the list |
| StackBuilder.FlattenIndex | src/components/Cairn.tsx:166 | every rock of the list comes from some layer |
| StackBuilder.FlattenOrdered | src/components/Cairn.tsx:166 | layers tagged by index concatenate to a list with non-decreasing layer tags |
| StackBuilder.StackedRocksShaped | src/components/Cairn.tsx:74-118 | every rock of a built stack has a positive box, grey in [140, 240), a valid layer tag, and a size in the band of its layer |
| StackBuilder.BaseRocksAscending | src/components/Cairn.tsx:80-89 | a bottom layer of several rocks runs left to right, any two centres more than 50 apart |
| StackBuilder.SpacingAtLeast | src/components/Cairn.tsx:88 | slots of a bottom layer of several rocks are at least 70 apart |
| StackBuilder.UpperSlotWithinSpan | src/components/Cairn.tsx:130-134 | over a layer of several rocks, every slot lies within that layer's x-span |
| StackBuilder.UpperRocksOverBelow | src/components/Cairn.tsx:123-134 | an upper layer no larger than the one beneath lies within 10 of the x-span below |
| StackBuilder.CairnRocksOverBelow | src/components/Cairn.tsx:115-140 | in a cairn from a well-formed plan, every upper rock lies within 10 of the x-span of the layer beneath |

Facts about the code that are easy to misread:

- The size factor is `1 - L * (0.15 + 0.1u)` with a fresh draw per layer. It
  is linear in the layer index, not compounded from the layer below.
- The contact jitter `Math.random() * 6 - 3` is half-open, [−3, 3).
- With every draw at 0.5 the plan is [3, 1, 1, 1]. Each `Math.floor(0.5 * 2)`
  is 1, so every step takes one off the running maximum until it reaches 1:
  4, 3, 2, 1, and then `Math.max(1, …)` keeps it at 1.
- Because the bottom count is always at least 2, the lone bottom rock at
  x = 250 never occurs in a generated cairn. The model still places it, as
  the code does.
- Because counts never increase, an upper layer of several rocks always sits
  over a layer of several rocks. The 100-pixel fallback section width is
  modelled but never reached from a generated plan.

## Left out

- The rendering is not modelled because it is presentation, not generation: the SVG markup, the sort by layer before drawing, the fade-in state and its timer, and the mount-time effect.
- The worker script and the build configuration are not part of this model; they do not touch the generator.
- `Math.random()` is replaced by the explicit draw stream `rnd` with entries in [0, 1). Floating-point rounding is not modelled: all arithmetic is over exact reals.
- `Math.cos` and `Math.sin` are not modelled. A vertex is kept in polar form (centre, angle, two radii), and its Cartesian point and the `"x,y"` string joined by spaces are left out.
- The grey level is kept as the integer v instead of the string `rgb(v, v, v)`.
- The rotation drawn for a rock is passed to the outline generator, as in the code, which ignores it.
- RockShape.Synthesize: the radius bounds are stated only for a positive width and height, the only sizes the builder passes.
- StackBuilder.PlaceBaseRock, StackBuilder.PlaceUpperRock, StackBuilder.PlaceBaseLayer, StackBuilder.PlaceUpperLayer, StackBuilder.PlaceLayer: each states only that next moves forward, not the exact number of draws taken. The two rock rules state which draw fixes x; StackBuilder.FinishRock, LayerPlan.Generate and RockShape.Synthesize state their exact draw counts.
- StackBuilder.PlaceUpperRock: y is stated as resting within [−3, 3) of its support, not tied to the exact draw that sets the contact jitter.

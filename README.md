# cargo-lab in Dafny

This project models the rules that run under the rendering code of the cargo-lab
dashboard, a browser dashboard for a simulated maritime cargo fleet. It covers:

- the ship loading plan: a 2 x 20 grid of deck slots, each holding a stack of at most
  three containers (`ShipSlots`, from `src/pages/Cargo.tsx`);
- the fleet statistics: the on-time percentage, the average days to arrival and the
  status colours (`CargoStats`, from `src/utils/cargoStats.ts`);
- the one-line insight message (`Insight`, from `src/utils/generateInsightMessage.ts`);
- the mock cargo feed: fleet generation and the per-interval movement step
  (`CargoService`, from `src/services/cargoService.ts`). It uses the shared record of
  `CargoRecord`;
- the rotating globe: drag, touch, wheel and animation-frame state, and the hover test
  (`Globe`, from `src/components/charts/GlobalMap.tsx`);
- the "AI metrics" panel: four percentages drifting inside fixed bands (`BrainStats`,
  from `src/components/AIBrainStats.tsx`);
- the "AI brain" node graph: node construction, nearest-neighbour edges and the node
  picked under the pointer (`Brain`, from `src/pages/AIBrain.tsx`).

Code that the source runs by updating state becomes a class with `modifies` clauses.
These are the ship plan, the cargo feed, the globe view, the metrics panel and the brain
page. Loops become methods with invariants. Plain expressions become functions, and
lemmas state their properties.

The following are parameters rather than computed values:

- Random draws are samples `u` in [0, 1). A random index below n is `floor(u * n)`.
- The clock (`now`) is an integer millisecond count, or a real frame time.
- Every trigonometric computation is a parameter: the great-circle distance, the
  "move towards" step, projections, and the distances between graph nodes.

Arithmetic is exact:

- `Math.round(x)` is `floor(x + 1/2)`, written over integers.
- A ratio test `a / b > 0.4` is the cross-multiplication `10 a > 4 b`.

Three behaviours of the code that are easy to misread:

- Auto-rotation adds a fixed 0.05 to the yaw per animation frame. The step is not scaled
  by elapsed time.
- A comment in `Cargo.tsx` speaks of 4 rows, but the grid has 2 rows.
- `touchend` turns auto-rotation back on even while a mouse drag is still in progress.
  `Globe.GlobeView.TouchEnd` states this as written.

## Model

| member | source | states |
|---|---|---|
| Util.Pick | src/services/cargoService.ts:19 | `Math.floor(Math.random() * n)` is an index below n |
| CargoRecord.CountOnTimeOrDelivered | src/utils/cargoStats.ts:4-6 | the count of on-time-or-delivered records is at most the length; it is 0 exactly when no record qualifies, and the full length exactly when all do |
| CargoRecord.CountStatus | src/utils/generateInsightMessage.ts:8-9 | the count of one status is at most the length, and 0 exactly when no record has that status |
| CargoStats.RoundRatio | src/utils/cargoStats.ts:8 | `Math.round(num / den)` is the integer r with r - 1/2 <= num/den < r + 1/2 |
| CargoStats.RoundRatioUnique | src/utils/cargoStats.ts:8 | only one integer satisfies that rounding relation |
| CargoStats.RoundRatioMono | src/utils/cargoStats.ts:8 | rounding a ratio is monotone in the numerator |
| CargoStats.OnTimePercentage | src/utils/cargoStats.ts:1-9 | 0 for an empty list; otherwise round(100 k / n) with k the on-time-or-delivered count; always within 0..100, 0 when none qualify, 100 when all do |
| CargoStats.DaysLeft | src/utils/cargoStats.ts:19-23 | days left is never negative and is 0 once the eta has passed; for a future eta it is the whole number of days nearest to (eta - now) / day, halves rounded up |
| CargoStats.CountWithEta | src/utils/cargoStats.ts:17 | at most the length, and 0 exactly when no record has an eta |
| CargoStats.TransitDays | src/utils/cargoStats.ts:16-24 | as many entries as records with an eta, so empty exactly when no record has one |
| CargoStats.TransitDaysEntries | src/utils/cargoStats.ts:16-24 | the entries are exactly the days left of the records that have an eta, in both directions |
| CargoStats.TransitDaysConcat | src/utils/cargoStats.ts:16-24 | filtering and mapping a concatenation gives the concatenation of the results |
| CargoStats.SumBounds | src/utils/cargoStats.ts:29-31 | a sum lies between n times the least and n times the greatest element |
| CargoStats.RoundedMeanBetween | src/utils/cargoStats.ts:29-31 | a rounded mean stays between the bounds of the values averaged |
| CargoStats.AverageWithinRange | src/utils/cargoStats.ts:27-31 | the average is 0 when no record has an eta; otherwise it lies between the fewest and the most days left |
| CargoStats.NoEtaNoDays | src/utils/cargoStats.ts:17 | a record without an eta contributes no days |
| CargoStats.EtaLessIgnored | src/utils/cargoStats.ts:17 | inserting a record without an eta at any position changes neither the list of days nor the average |
| CargoStats.AverageTransitTime | src/utils/cargoStats.ts:11-34 | the text is decimal digits followed by "d", and reading the digits back gives the average; it is "0d" for an empty list or when no record has an eta |
| CargoStats.StatusColorDistinct | src/utils/cargoStats.ts:36-49 | the four known statuses get four different colours |
| CargoStats.StatusColorGreyIffUnknown | src/utils/cargoStats.ts:36-49 | grey `#9ca3af` is given exactly to the statuses that are not known |
| Insight.InsightMessage | src/utils/generateInsightMessage.ts:1-24 | the result is always one of the four fixed messages |
| Insight.MessagesDistinct | src/utils/generateInsightMessage.ts:11-23 | the four messages are pairwise different |
| Insight.DelayWarningIff | src/utils/generateInsightMessage.ts:11-13 | the delay warning appears exactly when more than 40% are delayed, whatever the other counts |
| Insight.RunningSmoothlyIff | src/utils/generateInsightMessage.ts:15-17 | "running smoothly" appears exactly when at most 40% are delayed and more than 80% are on time or delivered |
| Insight.MostlyInTransitIff | src/utils/generateInsightMessage.ts:19-21 | the in-transit message appears exactly when both earlier tests fail and more than 50% are in transit |
| Insight.EmptyIsInMotion | src/utils/generateInsightMessage.ts:2-23 | an empty list gets the default "in motion" message |
| Insight.ExactlyFortyPercentIsNoWarning | src/utils/generateInsightMessage.ts:11 | exactly 40% delayed does not trigger the warning |
| CargoService.FirstDifferent | src/services/cargoService.ts:21-23 | finds the first destination draw naming a port other than the origin, with all earlier draws naming the origin; None when every draw names the origin |
| CargoService.Destination | src/services/cargoService.ts:19-23 | the chosen destination is one of the six ports and is never the origin |
| CargoService.PickDestination | src/services/cargoService.ts:20-23 | the do-while loop stops at the first draw that differs from the origin |
| CargoService.CargoIdInjective | src/services/cargoService.ts:32 | ids "CARGO-" + (1000 + i) differ for different positions |
| CargoService.MockCargoIsFresh | src/services/cargoService.ts:25-45 | each generated shipment starts at its origin port, in transit, bound for a different port, with progress 0, speed 30, an eta of now plus travel time, and a size in [2, 4) |
| CargoService.GenerateMockCargoData | src/services/cargoService.ts:15-47 | yields `count` shipments in index order, the i-th built from its own draws |
| CargoService.NewCargo | src/services/cargoService.ts:19-45 | one loop iteration builds exactly the shipment described by its draws, running the destination do-while loop |
| CargoService.GeneratedIdsDistinct | src/services/cargoService.ts:18-32 | generated ids are pairwise distinct |
| CargoService.Advance | src/services/cargoService.ts:53-82 | a delivered shipment is unchanged; otherwise it either moves to the new position or, within 5 km of the destination, snaps onto it and becomes delivered; nothing but position and status changes |
| CargoService.Tick | src/services/cargoService.ts:53-83 | keeps length and order, and advances each shipment independently |
| CargoService.DeliveredIsAbsorbing | src/services/cargoService.ts:54 | after any number of intervals, a delivered shipment is exactly as it was |
| CargoService.TicksKeepIdentity | src/services/cargoService.ts:70-82 | across intervals a shipment keeps its id, route and eta, and its status is unchanged or has become delivered |
| CargoService.CargoFeed.Subscribe | src/services/cargoService.ts:49-50 | subscribing starts a feed of 10 generated shipments |
| CargoService.CargoFeed.Interval | src/services/cargoService.ts:52-86 | each interval replaces the list by its advanced copy and hands that copy on |
| CargoService.CargoFeed.Unsubscribe | src/services/cargoService.ts:88-90 | unsubscribing stops the feed and keeps the last list |
| ShipSlots.RealColumns | src/pages/Cargo.tsx:20-21 | the real columns are 2, 3, 5-8, 10-13 and 15-18 |
| ShipSlots.InitialSlots | src/pages/Cargo.tsx:12-25 | 40 slots, the i-th built by the slot rule |
| ShipSlots.InitialGrid | src/pages/Cargo.tsx:12-25 | slot i has id i, row i / 20 and column i % 20, no containers, capacity 3, and is real exactly when its column is |
| ShipSlots.RealSlots | src/pages/Cargo.tsx:39-41 | a slot is kept exactly when it is real |
| ShipSlots.RealSlotsKeepOrder | src/pages/Cargo.tsx:39-41 | filtering keeps the grid order |
| ShipSlots.StyleRules | src/pages/Cargo.tsx:126-146 | gaps are hidden; empty real slots are striped; k containers get the k-th fill colour; the stroke is red exactly when the slot is full |
| ShipSlots.SlotsDoNotOverlap | src/pages/Cargo.tsx:187-198 | x grows strictly with the column, so 24-wide slots never overlap; the two rows do not overlap either |
| ShipSlots.SlotsInsideHull | src/pages/Cargo.tsx:187-198 | every slot rectangle lies inside the hull's straight section |
| ShipSlots.ShipPlan.constructor | src/pages/Cargo.tsx:12-36 | the plan starts with the initial grid, no selection and an empty form |
| ShipSlots.ShipPlan.HandleSlotClick | src/pages/Cargo.tsx:75-83 | clicking a gap changes nothing; clicking the selected slot deselects it; clicking another real slot selects it |
| ShipSlots.ShipPlan.HandleInputChange | src/pages/Cargo.tsx:149-151 | only the named form field changes |
| ShipSlots.ShipPlan.AddContainer | src/pages/Cargo.tsx:86-123 | with no selection, or a full one, nothing changes; otherwise exactly one container goes on top of the selected stack, every other slot is unchanged, and form and selection are cleared; no stack ever exceeds 3 |
| ShipSlots.ShipPlan.Close | src/pages/Cargo.tsx:255-265 | the close button clears the form and the selection |
| ShipSlots.FindSlotIndex | src/pages/Cargo.tsx:103 | returns the first slot with the id, or -1 when there is none |
| ShipSlots.StackCounts | src/pages/Cargo.tsx:154-156 | for a selected slot, filled plus empty places make 3 and neither is negative; without a selection both are 0 |
| ShipSlots.StyleAlwaysDefined | src/pages/Cargo.tsx:135-142 | a non-empty real slot always finds its colour in the three-entry table |
| Globe.ClampScale | src/components/charts/GlobalMap.tsx:21-22 | the scale is pulled into [150, 400] and left alone inside it |
| Globe.ClampScaleMono | src/components/charts/GlobalMap.tsx:50-53 | clamping is monotone |
| Globe.Drag | src/components/charts/GlobalMap.tsx:255-259 | a drag turns the yaw by 0.5 dx and the pitch by -0.5 dy, and keeps the roll |
| Globe.DragTelescopes | src/components/charts/GlobalMap.tsx:253-261 | two drag steps through an intermediate point rotate as much as one step from start to end |
| Globe.DragBackRestores | src/components/charts/GlobalMap.tsx:253-261 | dragging back to the start undoes the rotation |
| Globe.Radius | src/components/charts/GlobalMap.tsx:137 | a marker's radius is its size, or 3 when the size is 0 |
| Globe.NearestHoverableUnique | src/components/charts/GlobalMap.tsx:119-143 | the hover rule determines one result |
| Globe.HitTest | src/components/charts/GlobalMap.tsx:119-143 | returns the nearest marker that is visible (at most 1.57 from the centre), projected, within radius + 2 and under 10 px; on ties the first wins; None when no marker qualifies |
| Globe.GlobeView.constructor | src/components/charts/GlobalMap.tsx:14-28 | mounting starts at rotation 0, scale 220, auto-rotation on with one frame requested |
| Globe.GlobeView.RequestFrame | src/components/charts/GlobalMap.tsx:43 | a request holds a new handle, and that handle becomes pending |
| Globe.GlobeView.CancelFrame | src/components/charts/GlobalMap.tsx:248-251 | cancelling drops the held frame; cancelling with none held changes nothing |
| Globe.GlobeView.AutoRotationFrame | src/components/charts/GlobalMap.tsx:35-44 | with auto-rotation off nothing changes and nothing is rescheduled; otherwise yaw grows by 0.05, pitch and roll stay, and the fired frame is replaced by one new frame |
| Globe.GlobeView.Wheel | src/components/charts/GlobalMap.tsx:47-54 | scale becomes clamp(s - 0.1 deltaY); nothing else changes |
| Globe.GlobeView.PointerDown | src/components/charts/GlobalMap.tsx:244-252 | a drag starts, auto-rotation stops and the pending frame is cancelled |
| Globe.GlobeView.PointerMove | src/components/charts/GlobalMap.tsx:253-261 | while dragging, the rotation follows the pointer's motion since its last position; otherwise nothing changes |
| Globe.GlobeView.PointerRelease | src/components/charts/GlobalMap.tsx:262-275 | the drag ends and auto-rotation resumes; a frame is requested only if none is held |
| Globe.GlobeView.TouchStart | src/components/charts/GlobalMap.tsx:279-292 | one finger records its position; two record their distance; auto-rotation stops and the frame is cancelled |
| Globe.GlobeView.TouchMove | src/components/charts/GlobalMap.tsx:293-312 | one finger rotates exactly like a drag; two fingers zoom by 0.5 times the change in their distance, clamped |
| Globe.GlobeView.TouchEnd | src/components/charts/GlobalMap.tsx:313-320 | touch state is cleared and auto-rotation resumes, with a frame requested only if none is held |
| Globe.GlobeView.MouseMove | src/components/charts/GlobalMap.tsx:111-151 | the selection becomes the hit-test result, and the tooltip moves to the mouse when something is hit |
| Globe.GlobeView.MouseOut | src/components/charts/GlobalMap.tsx:167 | the selection is cleared |
| Globe.GlobeView.Cleanup | src/components/charts/GlobalMap.tsx:179-183 | unmounting leaves no frame pending |
| Globe.FramesWhileRotating | src/components/charts/GlobalMap.tsx:35-44 | at most one frame is ever pending, and one is pending exactly while auto-rotation is on, so a frame never fires with auto-rotation off |
| BrainStats.Clamp | src/components/AIBrainStats.tsx:135-137 | for lo <= hi the result is in [lo, hi]; values already inside are unchanged; values outside go to the nearer bound |
| BrainStats.ScaleBelow | src/components/AIBrainStats.tsx:132-134 | a sample times a positive width lies in [0, width) |
| BrainStats.Rand | src/components/AIBrainStats.tsx:132-134 | `rand(min, max)` lies in [min, max) when min < max |
| BrainStats.DriftBounded | src/components/AIBrainStats.tsx:12-15 | after a drift the metric is inside its band whatever the sample; from inside the band it moves by at most the spread |
| BrainStats.MetricsPanel.constructor | src/components/AIBrainStats.tsx:5-8 | the readings start at 92, 11, 87 and 21, each inside its band |
| BrainStats.MetricsPanel.Tick | src/components/AIBrainStats.tsx:10-16 | every metric drifts with its own sample and ends inside its band; from a valid panel, stability moves by at most 1.2 and the others by at most 1 |
| Brain.Note | src/pages/AIBrain.tsx:60-63 | the imbalance note appears exactly when id % 7 == 0; otherwise the note is "Stable reading" |
| Brain.LabelInjective | src/pages/AIBrain.tsx:58 | different nodes have different labels |
| Brain.Importance | src/pages/AIBrain.tsx:59 | importance is between 10 and 94 |
| Brain.Size | src/pages/AIBrain.tsx:55 | a drawn size lies in [lo, lo + 4) |
| Brain.InitialNodes | src/pages/AIBrain.tsx:41-66 | one node per index, built by the creation rule |
| Brain.Boosts | src/pages/AIBrain.tsx:69-73 | the enlargement pass keeps the number of nodes |
| Brain.BoostsFacts | src/pages/AIBrain.tsx:41-73 | node k has id k and note(k); it is highlighted exactly when k < 8 or an enlargement picked it; its size is in [6, 10) if picked and in [2, 6) otherwise |
| Brain.CountHighlighted | src/pages/AIBrain.tsx:56 | the highlighted count is at most the number of nodes |
| Brain.CountHighlightedUpdate | src/pages/AIBrain.tsx:71-72 | replacing one node changes the count only by the change in that node's flag |
| Brain.InitialHighlights | src/pages/AIBrain.tsx:56 | exactly the first eight new nodes are highlighted |
| Brain.BoostsHighlightCount | src/pages/AIBrain.tsx:56-73 | after t enlargements between 8 and 8 + t nodes are highlighted; with 8 enlargements that is 8..16 |
| Brain.Neighbours | src/pages/AIBrain.tsx:86-87 | `slice(1, 1 + K)` gives exactly min(3, length - 1) entries (none for an empty ranking), the p-th being position p + 1 of the ranking |
| Brain.Forward | src/pages/AIBrain.tsx:88-92 | a node's edges all start at it, go to a larger index and end at one of its neighbours |
| Brain.ForwardComplete | src/pages/AIBrain.tsx:88-92 | conversely, every neighbour with a larger index gets its edge |
| Brain.KnnEdges | src/pages/AIBrain.tsx:76-93 | every edge [i, j] has i < j (no self-loops, no pair both ways), and j is among i's neighbours |
| Brain.KnnEdgesComplete | src/pages/AIBrain.tsx:77-93 | every pair i < j with j among i's neighbours appears as an edge, so with KnnEdges the edges are exactly these pairs |
| Brain.KnnEdgesCount | src/pages/AIBrain.tsx:77-93 | at most K edges per node, so at most 270 in total |
| Brain.EdgesFrom | src/pages/AIBrain.tsx:88-92 | the edges from i all start at i |
| Brain.EdgesFromNode | src/pages/AIBrain.tsx:78-93 | node i's edges are exactly its own forward neighbours, at most K of them |
| Brain.KnnEdgesDistinct | src/pages/AIBrain.tsx:88-92 | when each ranking lists every node once, no edge is emitted twice |
| Brain.KnnEdgesNearest | src/pages/AIBrain.tsx:81-87 | an edge's endpoint is no farther from its start than any node outside the first K + 1 places of the start's ranking |
| Brain.CreateNodes | src/pages/AIBrain.tsx:41-66 | the first pass pushes the nodes in id order |
| Brain.EnlargeNodes | src/pages/AIBrain.tsx:69-73 | the second pass applies the eight enlargements in order |
| Brain.ConnectNeighbours | src/pages/AIBrain.tsx:76-93 | the third pass emits exactly the nearest-neighbour edges |
| Brain.NearestPoint | src/pages/AIBrain.tsx:246-257 | returns the nearest point by squared distance, the first one on ties; None exactly for an empty list |
| Brain.NearestUnique | src/pages/AIBrain.tsx:166-175 | the nearest point, with ties going to the first, is unique |
| Brain.Confidence | src/pages/AIBrain.tsx:261-263 | confidence lies between 60 and 95 |
| Brain.TitlesDistinguish | src/pages/AIBrain.tsx:178-183 | the default, hover and deep-reasoning titles never coincide, and titles for different nodes differ |
| Brain.SpinTelescopes | src/pages/AIBrain.tsx:124-126 | rotation depends only on elapsed time, however it is split into frames |
| Brain.BrainView.constructor | src/pages/AIBrain.tsx:268-272 | mounting builds the graph, starts the clock, and shows the default texts with the pointer outside |
| Brain.BrainView.BuildNodes | src/pages/AIBrain.tsx:38-94 | nodes are the created-then-enlarged list, and edges are the nearest-neighbour edges |
| Brain.BrainView.Draw | src/pages/AIBrain.tsx:123-188 | for a frame that draws exactly the graph's nodes, the graph turns by 0.00009 per ms elapsed; while the pointer is over, the nearest drawn node, one of the graph's nodes, is returned for outlining; its texts are shown when it is within 50 px, otherwise the defaults; with the pointer outside, the texts stay |
| Brain.BrainView.PointerMove | src/pages/AIBrain.tsx:225-230 | the pointer position is recorded and marked as over the canvas |
| Brain.BrainView.PointerLeave | src/pages/AIBrain.tsx:231-237 | the pointer is marked as outside and the default texts return |
| Brain.BrainView.Click | src/pages/AIBrain.tsx:239-266 | does nothing unless the pointer is over; the nearest node within 50 px gets the deep-reasoning texts; with no such node nothing changes |

## Left out

- `src/utils/geoUtils.ts` (haversine distance, "move towards") is not part of this model.
  Floating-point trigonometry is out of scope. Both functions are opaque parameters of
  the cargo movement step.
- Projection and rendering are left out:
  - the d3 orthographic projection, `projection.invert` and `geoDistance`;
  - the AI-brain `project` function;
  - canvas and SVG drawing, pulse and alpha styling;
  - the land and graticule paths and the depth sort.

  These are foreign library calls or floating-point rendering. The hover tests take the
  projected positions and distances as inputs.
- Browser timing and plumbing are left out: `requestAnimationFrame` timing,
  `setInterval`, `ResizeObserver`, and event-listener registration and removal.
  Animation frames are abstract handles. An interval is one method call.
- `Math.random`, `Date.now` and `performance.now` are inputs, not computed.
- `formatDateTime` is left out because its output depends on the locale.
- The tooltip DOM work in `Cargo.tsx` and `GlobalMap.tsx` is left out. So is the
  container's `addedAt` timestamp, because it reads the clock.
- Floating-point rounding is not modelled. Reals are exact. The ratio tests and
  `Math.round` are exact rational computations. The ratio tests compare the same values
  as the source for realistic list sizes.
- Globe.Radius: the source's `cargo.size || 3` also falls back to 3 for a missing or NaN
  size. Generated records always carry a numeric size, so only the zero case is modelled.
- CargoService.GenerateMockCargoData: one timestamp `now` serves every shipment's eta. The
  source reads `Date.now()` once per shipment, so its etas can also differ by the few
  milliseconds the loop takes.
- CargoService.GenerateMockCargoData: the do-while loop ends only if some destination
  draw differs from the origin. The model requires such a draw. Endless draws of the
  origin port are not modelled.
- Brain.KnnEdgesNearest: the source sorts by floating-point distance with a stable sort.
  The model takes each node's ranking as an input, and only assumes it lists every node
  once in non-decreasing distance. The tie order of the stable sort is not modelled.
- Brain.BrainView.Draw: the hover texts come from the drawn (depth-sorted) copies of the
  nodes. The depth order itself is an input.

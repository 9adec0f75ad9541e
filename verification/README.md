# Sverchok update events, node wrapper buffer and generator index logic

This project models in Dafny the discrete core of Sverchok, the node-based
geometry add-on for Blender, and proves properties of the model.

- **Events** (`events.dfy`, `core/events.py`). The host emits small change
  signals (`BlenderEvent`). An `EventsWave` buffers them until a signal
  arrives that closes a wave. The wave is then converted to
  `SverchokEvent`s through the fixed `EVENT_CONVERSION` table.
  `CurrentEvents` is the dispatcher. While it works it ignores new signals.
  It redraws the nodes, hands the nodes that were not freed to
  recomputation, and installs a fresh wave.
- **Shadow graph** (`shadow_graph.dfy`, `core/events.py`). `SvTree`,
  `NodesCollection`, `LinksCollection`, `SvNode` and `SvLink` keep
  dictionaries of node ids and link ids. A link id is the from-socket id
  followed by the to-socket id.
- **Node wrapper** (`handling_nodes.dfy`, `utils/handling_nodes.py`).
  `WrapNode` vectorises a node's process method over layers. Assignments
  to output sockets go to a per-socket list of layers. That list is padded
  in place up to the current layer. An in-process flag guards the list and
  is cleared on every exit.
- **Torus generator** (`torus.dfy`, `nodes/generator/torus.py`). The
  edge and quad index lists of an N1 x N2 wrapped grid, and the shape of
  the vertex and normal lists.
- **Three-point arc generator** (`basic_arc.dfy`,
  `nodes/generator/basic_3pt_arc.py`). Grouping points into triples,
  per-arc vertex counts and padding, and the edge chain.
- **Curves** (`curve.dfy`, `utils/curve.py`). The flip and reparametrize
  parameter maps over `real`. The concatenated curve's choice of sub-curve
  and run-length grouping of parameters. The number of derivative arrays.
  The prepare-before-use state of the length solver. The point-count
  dispatch of `from_points`, and the Bezier degree.

Python exceptions are values of `Wrappers.PyError`. Operations that can
raise return `Result`, `Outcome` or `Option`.

The model follows the code where the code and its comments differ.

- `need_total_reconstruction` is true when the shadow already holds nodes.
  So a shadow that starts empty is never filled by
  `update_reconstruction`. `ShadowGraph.SvTree.UpdateReconstruction`
  states that consequence.
- The conversion of a wave tests the last event for a tree update, not
  the first.
- `handle_new_event` has no `try/finally`, so an error leaves the guard
  down.
- `NodeProps.__setattr__` returns the `AttributeError` instead of raising
  it.

## Model

| member | source | states |
|---|---|---|
| Events.EventConversionTotal | core/events.py:83-94 | every host event kind has an entry in the conversion table |
| Events.ConversionOfFreeNode | core/events.py:83-94 | the only host kind converted to free_node is free_node |
| Events.IsWaveEnd | core/events.py:97-103 | a kind closes a wave iff it is tree_update, node_property_update, monad_tree_update, undo or frame_change; every other kind defaults to not-end |
| Events.ConvertEvent | core/events.py:134-143 | the converted type comes from the table; tree, node, link, update function and arguments are copied unchanged |
| Events.ConvertAll | core/events.py:175-176 | one converted event per buffered event, same order |
| Events.WaveEnded | core/events.py:130-132 | a wave has ended iff it is non-empty and its last event's kind closes a wave |
| Events.ConvertWave | core/events.py:165-176 | RuntimeError before the wave ends; when the last event is a (monad) tree update, the result of the change analysis; otherwise every event converted in order |
| Events.TakeWhileType | core/events.py:289 | the longest prefix of events of the given kind |
| Events.ConvertByFirstType | core/events.py:280-290 | IndexError for an empty wave; [] when the first event is undo, frame_change or a (monad) tree update; else the longest run sharing the first event's kind, converted |
| Events.NodesToProcessAppend | core/events.py:299-301 | the nodes handed to recomputation for a concatenation are the concatenation of the parts' nodes |
| Events.ProcessedNodesFollowWave | core/events.py:299-301 | after a plain wave, recomputation gets the node of every non-free_node event, in wave order |
| Events.EventsWave.AddEvent | core/events.py:159-163 | node_update is ignored; any other event is appended and earlier entries are unchanged |
| Events.CurrentEvents.RedrawNodes | core/events.py:292-297 | one redraw call per converted event carrying a callback, in order; nothing else changes |
| Events.CurrentEvents.UpdateNodes | core/events.py:299-301 | recomputation receives the nodes of the non-free_node events; nothing else changes |
| Events.CurrentEvents.HandleNewEvent | core/events.py:265-278 | no change until the wave ends; on any error the guard stays down and the wave, redraws and recomputation calls are unchanged, a failed conversion also leaving the shadow alone; with a shadow the dispatch completes iff the shadow is empty or the live tree exists and its links resolve against the shadow's nodes; an empty shadow stays empty, a non-empty one gains the live node ids and, on success, the live link ids; a completed dispatch redraws, recomputes, raises the guard and installs an empty wave |
| Events.CurrentEvents.AddNewEvent | core/events.py:254-263 | with the guard down nothing changes; a signal that does not end the wave is only buffered and leaves the shadow alone; a signal that ends it dispatches the extended wave, with the outcome, calls and shadow state of that dispatch |
| ShadowGraph.NodesCollection.Add | core/events.py:404-406 | stores a new node under its id, overwriting; other ids unchanged |
| ShadowGraph.NodesCollection.Get | core/events.py:411-412 | the stored node for a known id, KeyError otherwise |
| ShadowGraph.LinksCollection.Add | core/events.py:380-387 | KeyError iff an endpoint node is missing, nothing changed then; else the same link under from-socket id + to-socket id in the link map, the from-node's outputs and the to-node's inputs; keeps the maps consistent |
| ShadowGraph.SvTree.NeedTotalReconstruction | core/events.py:346-348 | true iff the node collection is non-empty (as written) |
| ShadowGraph.SvTree.CheckReconstructionCorrectness | core/events.py:350-357 | LookupError when the live tree is missing; else true iff node and link key sets equal the live ones |
| ShadowGraph.SvTree.AddNodes | core/events.py:341-344 | node keys become the old keys plus the live node ids |
| ShadowGraph.SvTree.AddLinks | core/events.py:341-344 | succeeds iff every link's endpoints are known, then link keys grow by the live link ids; otherwise KeyError at the first link with an unknown endpoint, the keys then being the old ones plus those of the links before it |
| ShadowGraph.SvTree.TotalReconstruction | core/events.py:341-344 | LookupError without a live tree, changing nothing; adds all nodes then all links; on KeyError the shadow keeps its old links plus those added before the first unresolvable one; from an empty shadow, a resolvable live tree is reconstructed correctly |
| ShadowGraph.SvTree.UpdateReconstruction | core/events.py:333-339 | an empty shadow passes and stays empty, and is then not a correct copy of a non-empty live tree; a non-empty one is LookupError without a live tree, changing nothing; otherwise it gains the live node ids, passes iff the live links resolve against its old nodes, then gains the live link ids, and on KeyError keeps its old links plus those before the first unresolvable one |
| HandlingNodes.ReplaceName | utils/handling_nodes.py:154-157 | only the name changes |
| HandlingNodes.DefaultSocketNotRequired | utils/handling_nodes.py:160-168 | a socket declared with the defaults is not mandatory, so adding it never changes whether the required inputs are linked |
| HandlingNodes.DefaultSocketReadsEmptyLayer | utils/handling_nodes.py:160-168 | a socket declared with the defaults reads one empty layer, on every layer, from a host socket holding no data |
| HandlingNodes.Lookup | utils/handling_nodes.py:179-189 | a declared key is found iff it is declared, with its properties |
| HandlingNodes.MandatoryLinked | utils/handling_nodes.py:214-216 | true iff every mandatory socket paired by position with a host input is linked |
| HandlingNodes.InputLayer | utils/handling_nodes.py:223-226 | layer k when it exists, else the last layer, IndexError when there are none |
| HandlingNodes.MaxLayers | utils/handling_nodes.py:99 | ValueError iff the node has no inputs, success otherwise; the result is the largest layer count (an empty socket counting as one layer), attained by some input |
| HandlingNodes.Padded | utils/handling_nodes.py:285-289 | length max(old length, k+1); entry k is the data; new padding is []; other entries unchanged |
| HandlingNodes.AssignmentsTouchOnlyTheirLayer | utils/handling_nodes.py:281-289 | one layer's assignments keep every other layer of every output and pad no further than k+1 |
| HandlingNodes.BufferBoundedByLayers | utils/handling_nodes.py:97-102 | after m layers no output holds more than m layers |
| HandlingNodes.PassThrough | utils/handling_nodes.py:104-116 | every write goes to an output the host node has, at most one per socket; the pass-through raises iff some socket naming a host output is linked without data |
| HandlingNodes.PassThroughWithoutRaise | utils/handling_nodes.py:104-116 | when no linked input lacks data, nothing raises and there is exactly one write per declared socket naming a host output |
| HandlingNodes.PassThroughFailureStops | utils/handling_nodes.py:104-116 | an error raised while passing data through ends the pass-through |
| HandlingNodes.FailureStops | utils/handling_nodes.py:78-79 | an error raised by the process on one layer ends the layer loop |
| HandlingNodes.NodeProps.SetAttr | utils/handling_nodes.py:309-322 | a property is stored, named after the key when nameless; a plain value for a property key returns AttributeError and changes nothing; other plain values become attributes |
| HandlingNodes.NodeInputs.HasRequiredData | utils/handling_nodes.py:214-216 | true iff every mandatory declared input is linked on the host |
| HandlingNodes.NodeInputs.GetSocketData | utils/handling_nodes.py:218-227 | KeyError for an undeclared key; AttributeError without a host node; KeyError when the host has no input of the declared name; TypeError without a layer number; otherwise the layer of the named host socket (its default when empty), falling back to the last layer, IndexError when it has none |
| HandlingNodes.NodeOutputs.Clear | utils/handling_nodes.py:278-279 | the output buffer is emptied |
| HandlingNodes.PadAndStore | utils/handling_nodes.py:285-289 | the loop that appends empty layers and then stores the data yields exactly the padded list |
| HandlingNodes.NodeOutputs.AddSocketData | utils/handling_nodes.py:281-289 | RuntimeError and no change outside process; inside, the key's layers become the padded list with the data at the current layer |
| HandlingNodes.NodeOutputs.GetSocketData | utils/handling_nodes.py:291-300 | AttributeError outside process; inside, the current layer, or AttributeError when it is at or beyond the stored length |
| HandlingNodes.NodeOutputs.SetDataToBlSockets | utils/handling_nodes.py:275-276 | host output i receives the layers stored under declared output i, for as many pairs as both lists have |
| HandlingNodes.WrapNode.EnterReadSocketData | utils/handling_nodes.py:86-91 | the host node is recorded, outputs are cleared and process mode is on |
| HandlingNodes.WrapNode.ApplyLayer | utils/handling_nodes.py:248-254 | the buffer after the layer is the fold of its assignments over the padded layers |
| HandlingNodes.WrapNode.PassData | utils/handling_nodes.py:104-116 | exactly the writes of the pass-through specification, and its error as the outcome |
| HandlingNodes.WrapNode.Process | utils/handling_nodes.py:71-102 | missing required inputs give the pass-through's writes and error; no inputs is ValueError; an error on some layer fails with it and sends nothing; else one write per output pair carrying the per-layer fold over max-layer-count layers; process mode is off again on every exit |
| Torus.SpinEdgeListAt | nodes/generator/torus.py:89-92 | spin edge k joins k to the next index of its ring, wrapping at the ring's end |
| Torus.RevolutionEdgeListAt | nodes/generator/torus.py:95-99 | revolution edge k joins k to the same column of the next ring, the last ring wrapping to the first |
| Torus.QuadListAt | nodes/generator/torus.py:110-116 | quad k spans its grid cell with both wraps |
| Torus.TorusEdgeList | nodes/generator/torus.py:81-101 | exactly 2·N1·N2 edges |
| Torus.TorusEdgesShape | nodes/generator/torus.py:89-99 | the first N1·N2 edges are spin edges, the rest revolution edges, every endpoint in [0, N1·N2) |
| Torus.TorusPolygonsShape | nodes/generator/torus.py:104-118 | exactly N1·N2 quads, quad k at cell k, every index in [0, N1·N2) |
| Torus.SpinLoopEdges | nodes/generator/torus.py:88-92 | the nested loops build the spin edge list |
| Torus.RevolutionLoopEdges | nodes/generator/torus.py:94-99 | the loops build the revolution edge list, last ring joined to the first |
| Torus.TorusEdges | nodes/generator/torus.py:81-101 | the edge list is the spin then the revolution edges |
| Torus.InnerRowPolygons | nodes/generator/torus.py:110-113 | the loops build the quads of the first N1-1 rings |
| Torus.QuadListLastRow | nodes/generator/torus.py:114-116 | the last ring's quads join it to the first ring |
| Torus.TorusPolygons | nodes/generator/torus.py:104-118 | the loops build all N1·N2 quads |
| Torus.TorusVerts | nodes/generator/torus.py:31-78 | N1·N2 normals in grid order; the vertices flat in the same order, or N1 loops of N2 when Separate |
| BasicArc.Triples | nodes/generator/basic_3pt_arc.py:85 | ⌊len/3⌋ groups, group j is points 3j..3j+2 |
| BasicArc.TriplesCover | nodes/generator/basic_3pt_arc.py:85 | the first m triples, concatenated, are the first 3m points |
| BasicArc.EdgeChain | nodes/generator/basic_3pt_arc.py:75-76 | count-1 edges (n, n+1) forming a chain from 0 to count-1 |
| BasicArc.AtLeastThree | nodes/generator/basic_3pt_arc.py:89 | the larger of 3 and the count |
| BasicArc.GenerateArc | nodes/generator/basic_3pt_arc.py:30-78 | ZeroDivisionError iff num_verts is 1; else exactly num_verts vertices in both branches, edges the chain when asked |
| BasicArc.MakeAllArcs | nodes/generator/basic_3pt_arc.py:81-96 | IndexError iff nv is shorter than the triples, success otherwise; arc idx has max(3, nv[idx]) vertices, and edges are given per arc only when asked |
| BasicArc.PaddedCounts | nodes/generator/basic_3pt_arc.py:167-180 | linked counts padded with the last count up to the arc count; unlinked, that many copies of the node's own count; IndexError only for linked numbers with no data |
| BasicArc.PadVertexCounts | nodes/generator/basic_3pt_arc.py:167-180 | the padding loop yields exactly the padded counts |
| BasicArc.Process | nodes/generator/basic_3pt_arc.py:128-189 | no output without the Edges socket and both links, nor when the point count is not a multiple of 3; else the padding's IndexError, or IndexError when the counts are fewer than the arcs, or exactly the arcs of the triples with the padded counts and their edges iff the Edges output is linked |
| Curve.FlipWithinBounds | utils/curve.py:383-386 | the flip map swaps m and M, keeps [m, M] and is its own inverse |
| Curve.FlipTwice | utils/curve.py:371-386 | flipping twice gives the original bounds and parameters |
| Curve.ReparametrizeEnds | utils/curve.py:427-433 | the reparametrized curve's 0 and 1 reach the base curve's ends |
| Curve.ReparametrizeWithin | utils/curve.py:430-433 | the map sends [0, 1] into [m, M] |
| Curve.BoundsOrdered | utils/curve.py:380-381 | the bounds of flipped or reparametrized curves stay ordered |
| Curve.StaysWithinBase | utils/curve.py:383-433 | any chain of flips and reparametrizations evaluates the base curve within its bounds |
| Curve.RunningTotals | utils/curve.py:290-291 | starts at 0, each entry adds the next length |
| Curve.RunningTotalsEndInSum | utils/curve.py:290-291 | the last running total is the sum of the lengths |
| Curve.RunningTotalsSorted | utils/curve.py:290-291 | running totals of non-negative lengths are sorted |
| Curve.NewConcatCurve | utils/curve.py:280-293 | the sub-curves' starts and ranges; left bounds are the running ranges, or the indices when scaled to unit |
| Curve.CountBelowSplits | utils/curve.py:299 | on sorted bounds, everything before the count is below t and everything after is not |
| Curve.CurveIndex | utils/curve.py:299-300 | the chosen sub-curve is clipped into [0, count-1] |
| Curve.ScaledLocalParameterInBounds | utils/curve.py:303-305 | scaled to unit, parameters in a sub-curve's unit span land in that sub-curve's own bounds |
| Curve.UnscaledLocalParameterInBounds | utils/curve.py:303-305 | unscaled, parameters in a sub-curve's span land in its own bounds |
| Curve.ScaledLocalParameterAsWrittenMissesStart | utils/curve.py:303-305 | the scaled parameter as written misses the start of a sub-curve not starting at 0 |
| Curve.GroupRuns | utils/curve.py:308-328 | concatenating the groups gives back the tagged parameters in order; no group is empty and neighbours differ in sub-curve |
| Curve.RunsMeaning | utils/curve.py:308-328 | the run condition the grouping keeps holds exactly when no group is empty and no two neighbouring groups share a sub-curve |
| Curve.ExtendRun | utils/curve.py:313-314 | a parameter on the open group's sub-curve extends that group and the expansion stays the input prefix |
| Curve.StartRun | utils/curve.py:315-318 | a parameter on another sub-curve closes the open group, keeping the run condition, and opens a new one |
| Curve.TagParameters | utils/curve.py:298-305 | one tagged parameter per input, in order, each with its clipped sub-curve and the corrected local parameter, which unscaled is the parameter as written |
| Curve.TsGrouped | utils/curve.py:298-328 | IndexError iff there are no sub-curves and some parameter, success otherwise; runs reproducing the tagged parameters, sub-curve indices in range |
| Curve.ExpandedCurvesOccur | utils/curve.py:308-328 | every group's sub-curve occurs among the tagged parameters |
| Curve.DerivativesArray | utils/curve.py:100-122 | min(n, 3) arrays (at least one for positive n) ordered first, second, third, for the general and the Bezier curve |
| Curve.ShortestLength | utils/curve.py:361-369 | the least number of arrays of any sub-curve |
| Curve.ConcatDerivatives | utils/curve.py:361-369 | [] for n ≤ 0; ValueError when there are no runs, that is no parameters; IndexError when a run gives fewer than n arrays; success when every run gives at least n, then exactly n joined arrays |
| Curve.ConcatOfGeneralCurvesStopsAtThree | utils/curve.py:361-369 | with every run holding the arrays of a derivative query for order n, some run falls short of n exactly when n > 3, so the join is an IndexError iff n > 3 |
| Curve.Linspace | utils/curve.py:239 | ValueError iff n < 0, success otherwise; n knots from the first to the last bound |
| Curve.MakeSpline | utils/curve.py:244-253 | linear for "LIN", cubic for "SPL", any other mode raises; mismatched lengths raise ValueError |
| Curve.CurveLengthSolver.TotalLength | utils/curve.py:232-235 | raises iff not prepared; then the last cumulative length |
| Curve.CurveLengthSolver.Prepare | utils/curve.py:237-242 | ValueError and no change for a negative resolution; an error raised while sampling is passed on with no change; else the cumulative lengths are stored, then the spline; resolution 0 is then ValueError; from one sample on it succeeds iff the mode is LIN or SPL, and then the stored lengths are sorted and the total length is the sum of the segment lengths, never negative |
| Curve.CurveLengthSolver.Solve | utils/curve.py:255-259 | raises iff not prepared; once prepared, the spline evaluated at the lengths |
| Curve.FromPoints | utils/curve.py:689-695 | raises for fewer than 2 points; a line through both points at 0 and 1 for exactly 2; a spline otherwise |
| Curve.NewBezierCurve | utils/curve.py:942-946 | the degree is the number of points minus one |

## Left out

- Blender I/O is left out: the host node trees, socket caches and `bpy` property declarations. The live graph is a value passed in (`LiveTree`), and a missing one is LookupError.
- Printing is left out; it has no effect on state. Debug mode is taken as off. With it on, `update_reconstruction` ends by checking the shadow against the live tree (core/events.py:338-339), and a missing live tree then raises LookupError after the reconstruction step, even for an empty shadow, leaving the dispatcher's guard down. ShadowGraph.SvTree.UpdateReconstruction and the dispatch contracts describe debug mode off only.
- `process_from_nodes` and the redraw callbacks are outside code. The model records the calls made to them.
- `convert_known_events`, `analyze_changes`, the `search_*` methods and `NodeTreesReconstruction` are unimplemented stubs. The conversion of a tree-changing wave is a function parameter, and the reconstruction lookup is a parameter that may be null. A null lookup result raises AttributeError, as `None.update_reconstruction` does.
- The `EventsWave` link and reroute flags are never updated by the source, so they are not modelled.
- `node_id` and `socket_id` hash a clock. Ids are opaque strings in the model.
- Events.ConvertByFirstType: `convert_wave_to_sverchok_events` indexes the wave object itself, which has no item access, so as written it always raises TypeError and nothing calls it. The model states the evidently meant behaviour over the wave's event list.
- HandlingNodes.NodeProps.SetAttr: a plain value assigned to the key "properties" replaces the property dictionary in the source. The model records it as a plain attribute.
- HandlingNodes.NodeOutputs.AddSocketData: assignment when no layer number is set raises TypeError in the source. The model gives TypeError after the default-dictionary insert, which leaves the key's stored layers in the buffer (an empty list for a new key) and changes nothing else.
- HandlingNodes.PassThrough: reading a linked socket with no data and no default raises the host's no-data error, which the `except KeyError` does not catch. The model raises a generic exception there.
- The `__getattribute__`/`__setattr__` dispatch is modelled only through the buffer operations it routes to. `sv_init` socket creation and `initialize_node` are registration with the host and are left out.
- Copy semantics (`deepcopy`, `copy`) are left out. Values are immutable in the model.
- Torus.TorusEdges: the edge, polygon and vertex lists require N1, N2 ≥ 1, matching the node's property minimum of 3. Zero or negative counts are not modelled.
- Vertex coordinates of the torus and the arc are left out: trigonometry and `mathutils` rotations. Vertices are abstract samples that keep their index.
- BasicArc.GenerateArc: whether the three points define an arc or a straight line is a parameter. The intersection test is floating-point geometry.
- Curve.CountBelow models numpy `searchsorted` as the number of bounds below t. This matches numpy only for sorted bounds, which running totals of non-negative lengths are (RunningTotalsSorted).
- Curve.ConcatDerivatives: the column joining is abstract (`np.vstack`), and numpy's other shape errors are not modelled.
- Numeric geometry in utils/curve.py is floating point over numpy and is left out: evaluation, tangents, normals, curvature, torsion, Bezier coefficients, spline fitting, casts and lerps, and `make_euclidian_ts`. Real numbers stand in for floats in the parameter maps, so rounding is not modelled.
- The `derivatives_array` methods of the flip and reparametrize curves lack the `n` parameter that callers pass. They are numeric paths and are not modelled.
- Curve.CurveLengthSolver.Prepare: sampling the curve and measuring its segments is a function parameter that may raise; when it succeeds it must give one fewer length than samples, none negative, as distances between consecutive samples are. Which curves raise on which samples is numeric and not modelled.
- Curve.TagParameters: tags with the corrected local parameter (see Findings), not the scaled parameter as written; unscaled, the two agree and the contract says so.
- Curve.TsGrouped: groups the parameters of Curve.TagParameters, so under scale_to_unit its runs carry the corrected local parameters, not those as written.
- The other source files (NURBS surfaces, adaptive surfaces, the box generator, Blender handlers, the field-to-surface node, grease-pencil macros) are not part of this model.

## Findings

| source | as written | input that shows it | evidently intended | confidence | as-written member | corrected member |
|---|---|---|---|---|---|---|
| utils/curve.py:303-305 | with scale_to_unit, the sub-curve parameter is `(t - left_k + min_k) * range_k`, so the sub-curve's start is multiplied by its range | one sub-curve with bounds (1, 3), scale_to_unit, t = 0: gives 2 instead of the start 1 | `min_k + (t - left_k) * range_k`, mapping the unit span onto the sub-curve's bounds | not executed | Curve.ScaledLocalParameterAsWrittenMissesStart | Curve.ScaledLocalParameterInBounds |

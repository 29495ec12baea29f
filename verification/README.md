# Orientation rewrites of imageflow, in Dafny

This project models the orientation core of imageflow's graph engine
(`imageflow_core/src/flow/nodes/rotate_flip_transpose.rs`). Before a
pipeline runs, its composite orientation nodes are rewritten into a small
basis of primitives:

- `apply_orientation` is driven by an EXIF orientation flag.
- `rot90`, `rot180` and `rot270` each become a fixed two-node sequence.
- `noop` is deleted.
- `transpose` becomes a canvas allocation plus `transpose_to_canvas`, joined by a Canvas edge.

Along the way, frame-shape estimates (width, height, pixel format, alpha
flag) are propagated. The model also covers the run-time checks of
`transpose_to_canvas`: equal formats and distinct bitmaps are required
before the native call.

Layout, one module per file:

- `types.dfy` (`Types`): errors, `Result`, pixel formats, frame estimates, and the `i32`/`usize` conversions frame sizes go through.
- `nodes.dfy` (`Nodes`): descriptors (`Def`), parameter payloads, nodes with their Canvas edge, ranks, and the inbound-edge discipline.
- `estimate.dfy` (`Estimate`): the estimator of each descriptor, and the estimate along a linear pipeline.
- `rewrite.dfy` (`Rewrite`): the shape-independent rewrite rules and `Unfold`, which splices them in until no composite is left. Termination uses a weight of 3^rank per node.
- `lowering.dfy` (`Lowering`): the transpose rewrite, which needs the upstream estimate, and `Flatten`, the whole pass.
- `consistency.dfy` (`Consistency`): the estimate of every composite equals the chained estimates of its flattening.
- `geometry.dfy` (`Geometry`): what the rewrites do to pixels. The table undoes every EXIF orientation code, and the rotations are quarter turns.
- `execute.dfy` (`Execute`): execution of the primitives against bitmaps, and proof that lowering never builds a graph that trips the execution checks.
- `registry.dfy` (`Registry`): fully qualified names and lookup by name.

A linear pipeline is a `seq<Node>`. Each node's Input edge is the node before
it; a `transpose_to_canvas` node also records the canvas allocation feeding
its Canvas edge. Flattening has two phases. `Unfold` expands
`apply_orientation`, the rotations and `noop`. `Lower` then replaces each
`transpose` along the running estimate.

Notes on the code:

- `transpose_to_canvas` takes its estimate from its canvas (line 120), so after lowering the alpha flag is the canvas's.
- apply_orientation with any flag outside 2 to 8 (1, 0, 9 and negative flags alike) is removed (line 67).
- Run-time check failures, which panic in the code, are typed error results here.

## Model

| member | source | states |
|---|---|---|
| Types.AsUsize | imageflow_core/src/flow/nodes/rotate_flip_transpose.rs:89-91 | `h as usize` on a 64-bit target gives the unique value below 2^64 that is congruent to the size modulo 2^64 |
| Types.TruncI32 | imageflow_core/src/flow/nodes/rotate_flip_transpose.rs:88-91 | narrowing back to `i32` gives the unique 32-bit value congruent to the input modulo 2^32 |
| Types.TruncAsUsizeRoundTrip | imageflow_core/src/flow/nodes/rotate_flip_transpose.rs:88-91 | widening a frame size to the canvas request's `usize` and narrowing it back gives the same size, negative sizes included |
| Nodes.InboundEdges | imageflow_core/src/flow/nodes/rotate_flip_transpose.rs:118 | every node has an Input edge first, and it has a Canvas edge exactly when a canvas feeds it |
| Nodes.Rank | imageflow_core/src/flow/nodes/rotate_flip_transpose.rs:59-68 | rank 0 holds exactly the primitives (both flips and `transpose_to_canvas`); rank 2 or more holds exactly the composites other than `noop` |
| Estimate.ApplyOrientationEstimate | imageflow_core/src/flow/nodes/rotate_flip_transpose.rs:38-55 | any payload but ApplyOrientation gives NodeParamsMismatch; otherwise unknown stays unknown, format and alpha are kept, and width and height are exchanged exactly for flags 5 to 8 |
| Estimate.CanvasFrame | imageflow_core/src/flow/nodes/rotate_flip_transpose.rs:120 | the frame a canvas reports has the requested format and, for sizes that fit in 31 bits, the requested sizes |
| Estimate.NodeEstimate | imageflow_core/src/flow/nodes/rotate_flip_transpose.rs:57-254 | rot180, noop and the flips copy their input estimate; transpose, rot90 and rot270 rotate it; transpose_to_canvas takes its canvas's frame and fails without a Canvas edge |
| Estimate.ChainAppend | imageflow_core/src/flow/nodes/rotate_flip_transpose.rs:69-72 | estimating a spliced pipeline is estimating each part in turn |
| Estimate.ChainRespectsShape | imageflow_core/src/flow/nodes/rotate_flip_transpose.rs:38-51 | inputs of equal width, height and format give pipeline outcomes of equal shape: no estimator reads the alpha flag |
| Rewrite.ApplyOrientationExpand | imageflow_core/src/flow/nodes/rotate_flip_transpose.rs:57-77 | a payload mismatch fails with no replacement; otherwise at most two parameterless nodes of lower rank, and none exactly when the flag is outside 2 to 8 |
| Rewrite.RotationExpand | imageflow_core/src/flow/nodes/rotate_flip_transpose.rs:200-254 | each rotation becomes two parameterless nodes of lower rank; exactly rot180 contains no transpose |
| Rewrite.Expand | imageflow_core/src/flow/nodes/rotate_flip_transpose.rs:57-254 | noop expands to nothing; a rule fails only on a mismatched apply_orientation payload; every rule emits at most two nodes, each of strictly lower rank and never a canvas copy |
| Rewrite.ExpandLowersWeight | imageflow_core/src/flow/nodes/rotate_flip_transpose.rs:59-68 | a splice of at most two lower-ranked nodes strictly lowers the 3^rank weight, which is why flattening terminates |
| Rewrite.Unfold | imageflow_core/src/flow/nodes/rotate_flip_transpose.rs:69-72 | when splicing succeeds only basis descriptors remain; the only failure is a parameter mismatch |
| Rewrite.UnfoldBasisIsIdentity | imageflow_core/src/flow/nodes/rotate_flip_transpose.rs:69-72 | a pipeline with nothing left to expand is unfolded to itself |
| Rewrite.UnfoldIdempotent | imageflow_core/src/flow/nodes/rotate_flip_transpose.rs:69-72 | unfolding twice is unfolding once |
| Rewrite.UnfoldSucceeds | imageflow_core/src/flow/nodes/rotate_flip_transpose.rs:57-73 | unfolding succeeds whenever every apply_orientation node carries an ApplyOrientation payload |
| Rewrite.UnfoldFailsOnMismatch | imageflow_core/src/flow/nodes/rotate_flip_transpose.rs:74-76 | a single apply_orientation node with another payload fails the whole pass with NodeParamsMismatch |
| Rewrite.UnfoldKeepsWellFormed | imageflow_core/src/flow/nodes/rotate_flip_transpose.rs:69-72 | replacement nodes carry no payload and no Canvas edge, so a well-formed pipeline stays well formed |
| Rewrite.UnfoldKeepsBasisPrefix | imageflow_core/src/flow/nodes/rotate_flip_transpose.rs:69-72 | replacements are spliced where the composite stood: the nodes before it are kept in order |
| Rewrite.UnfoldOrigins | imageflow_core/src/flow/nodes/rotate_flip_transpose.rs:59-68 | every unfolded node was in the input or is a plain transpose or flip inserted by a rule |
| Rewrite.UnfoldConcat | imageflow_core/src/flow/nodes/rotate_flip_transpose.rs:69-72 | each composite is rewritten where it stands: `x + y` unfolds to the unfolding of `x` followed by that of `y`, and fails exactly when one part fails |
| Rewrite.UnfoldDeletesNoOp | imageflow_core/src/flow/nodes/rotate_flip_transpose.rs:154 | for any `a` and `b`, `a -> noop -> b` unfolds exactly as `a -> b` |
| Lowering.TransposeFlatten | imageflow_core/src/flow/nodes/rotate_flip_transpose.rs:86-104 | an unknown upstream estimate is fatal; otherwise a transpose_to_canvas node with one Input and one Canvas edge, fed by a transparent canvas of the upstream format that reports the rotated upstream shape; for non-negative sizes the canvas is h wide and w high |
| Lowering.Lower | imageflow_core/src/flow/nodes/rotate_flip_transpose.rs:85-108 | each transpose becomes a well-formed transpose_to_canvas, every other node is kept, and the lowered pipeline can be estimated |
| Lowering.Flatten | imageflow_core/src/flow/nodes/rotate_flip_transpose.rs:85-108 | a successful flatten leaves only primitives, one per unfolded node, and the result can be estimated |
| Lowering.KnownInputIsReady | imageflow_core/src/flow/nodes/rotate_flip_transpose.rs:57 | from a known source frame, every apply_orientation receives the parent frame info its `expand` needs |
| Lowering.FlattenOrientationNeedsEstimate | imageflow_core/src/flow/nodes/rotate_flip_transpose.rs:57 | an apply_orientation whose upstream estimate is unknown stops the pass with UnknownUpstreamEstimate, whatever surrounds it |
| Lowering.LowerPrimitiveIdentity | imageflow_core/src/flow/nodes/rotate_flip_transpose.rs:101 | lowering leaves unchanged a primitive-only pipeline whose estimate succeeds |
| Lowering.LowerSucceeds | imageflow_core/src/flow/nodes/rotate_flip_transpose.rs:87-104 | with a known source frame, lowering a well-formed basis pipeline succeeds and stays well formed |
| Lowering.FlattenSucceeds | imageflow_core/src/flow/nodes/rotate_flip_transpose.rs:87-104 | every well-formed pipeline with a known source frame flattens, and every node of the result obeys its edge discipline |
| Lowering.FlattenPrimitiveIdentity | imageflow_core/src/flow/nodes/rotate_flip_transpose.rs:114-198 | a primitive-only pipeline whose estimate succeeds is its own flattening |
| Lowering.LowerStopsAtBlindTranspose | imageflow_core/src/flow/nodes/rotate_flip_transpose.rs:87-104 | lowering stops with UnknownUpstreamEstimate at the first transpose reached with an unknown estimate, even after earlier transposes were lowered |
| Lowering.FlattenIdempotent | imageflow_core/src/flow/nodes/rotate_flip_transpose.rs:101 | flattening a flattened pipeline changes nothing |
| Consistency.FlattenTransposeNeedsEstimate | imageflow_core/src/flow/nodes/rotate_flip_transpose.rs:87-104 | a transpose reached with an unknown estimate, anywhere in a pipeline, makes flattening fail; when the parts before and after it unfold, the failure is UnknownUpstreamEstimate |
| Consistency.ExpandPreservesEstimate | imageflow_core/src/flow/nodes/rotate_flip_transpose.rs:59-68 | every rewrite rule is estimate-neutral: its replacement, estimated node by node, predicts exactly what the composite predicts |
| Consistency.UnfoldPreservesEstimate | imageflow_core/src/flow/nodes/rotate_flip_transpose.rs:69-72 | unfolding never changes a pipeline's estimate or error |
| Consistency.LowerPreservesShape | imageflow_core/src/flow/nodes/rotate_flip_transpose.rs:87-101 | lowering keeps the final width, height and format of a pipeline |
| Consistency.FlattenPreservesShape | imageflow_core/src/flow/nodes/rotate_flip_transpose.rs:85-108 | a flattened pipeline ends in the width, height and format the original was estimated to produce |
| Consistency.CompositeEstimateMatchesFlattening | imageflow_core/src/flow/nodes/rotate_flip_transpose.rs:38-84 | for every composite on every known frame, the estimate equals the chained estimates of its full flattening; rot90, rot270 and transpose swap; rot180 and noop keep; apply_orientation swaps exactly for flags 5 to 8 |
| Consistency.ParityDecidesSwap | imageflow_core/src/flow/nodes/rotate_flip_transpose.rs:84 | over flips and transposes, a frame comes out swapped exactly when there is an odd number of transposes |
| Consistency.OrientationTransposeParity | imageflow_core/src/flow/nodes/rotate_flip_transpose.rs:59-68 | the unfolded orientation holds an odd number of transposes exactly for flags 5 to 8 |
| Geometry.OrientationUnfoldTable | imageflow_core/src/flow/nodes/rotate_flip_transpose.rs:59-68 | the complete primitive sequence, in order, for every flag; flags outside 2 to 8 give nothing |
| Geometry.RotationUnfoldTable | imageflow_core/src/flow/nodes/rotate_flip_transpose.rs:200-254 | rot90, rot180 and rot270 unfold to [transpose, flip_v], [flip_v, flip_h] and [flip_v, transpose], spliced in front of the rest |
| Geometry.OrientationIsUndone | imageflow_core/src/flow/nodes/rotate_flip_transpose.rs:59-68 | for every EXIF code 1 to 8, the unfolded table moves each stored pixel to where the code's first-row and first-column sides say it belongs |
| Geometry.RotationsTurn | imageflow_core/src/flow/nodes/rotate_flip_transpose.rs:200-254 | rot90 turns a quarter counter-clockwise, rot180 a half turn, and rot270 a quarter clockwise |
| Geometry.RotateEstimateMatchesPixels | imageflow_core/src/flow/nodes/rotate_flip_transpose.rs:84 | the estimator shared by transpose, rot90 and rot270 reports the frame their pixels land in: every pixel is moved inside it, and its size is the moved size |
| Geometry.UprightSizeMatchesEstimate | imageflow_core/src/flow/nodes/rotate_flip_transpose.rs:38-51 | the frame the upright pixels land in is the frame apply_orientation's estimate predicts |
| Execute.TransposeToCanvasExec | imageflow_core/src/flow/nodes/rotate_flip_transpose.rs:122-141 | a format mismatch is refused, and so is an input that is the canvas itself, before any native call; otherwise there is one native call, and on success the output is the canvas |
| Execute.FlipMutate | imageflow_core/src/flow/nodes/rotate_flip_transpose.rs:170-177 | an in-place flip makes one native call; it succeeds exactly when the library does, with the same bitmap, which still matches the flip's estimate; otherwise CError |
| Execute.ExecuteNode | imageflow_core/src/flow/nodes/rotate_flip_transpose.rs:148-156 | a node without an execute step (noop, any composite) is refused; a freshly allocated canvas is never aliased with the input; no node calls the library more than once |
| Execute.LowerSucceedsOnFlipsAndTransposes | imageflow_core/src/flow/nodes/rotate_flip_transpose.rs:87-104 | from a known frame, flips and transposes always lower, and the result has a known estimate |
| Execute.LoweredPipelineExecutes | imageflow_core/src/flow/nodes/rotate_flip_transpose.rs:89-140 | every lowered transpose sees equal formats and distinct bitmaps, so only native calls can fail; on success there is one call per primitive and the output bitmap has exactly the estimated shape |
| Execute.FlattenedPipelineExecutes | imageflow_core/src/flow/nodes/rotate_flip_transpose.rs:85-140 | end to end: a well-formed pipeline authored without transpose_to_canvas, run from a bitmap that matches the source frame and has an id below the fresh ones, flattens; its execution never hits the consistency checks; on success the output has the original estimate's width, height and format |
| Registry.FqnShape | imageflow_core/src/flow/nodes/rotate_flip_transpose.rs:6-239 | about the names `Registry.Fqn` gives at lines 6-7, 36, 82, 116, 150, 168, 188, 202, 220 and 239: every name lies in the `imazen.` namespace, and a name ends in `_mutate` exactly when it belongs to an in-place primitive |
| Registry.FindFirst | imageflow_core/src/flow/nodes/rotate_flip_transpose.rs:3-23 | lookup returns the first registered descriptor with that name, or nothing exactly when no descriptor has it |
| Registry.TableComplete | imageflow_core/src/flow/nodes/rotate_flip_transpose.rs:3-23 | every descriptor of the core is registered |
| Registry.AsWrittenFlipNamesCollide | imageflow_core/src/flow/nodes/rotate_flip_transpose.rs:186-189 | as written, both flip primitives are named `imazen.flip_vertical_mutate`, so a lookup by the horizontal primitive's name yields the vertical one |
| Registry.CorrectedNamesInjective | imageflow_core/src/flow/nodes/rotate_flip_transpose.rs:166-189 | with the horizontal primitive renamed, no two descriptors share a name |
| Registry.CorrectedLookupRoundTrip | imageflow_core/src/flow/nodes/rotate_flip_transpose.rs:166-189 | with the corrected names, looking a descriptor up by its name gives it back |

## Left out

- The native calls `flow_bitmap_bgra_flip_vertical`, `flow_bitmap_bgra_flip_horizontal` and `flow_bitmap_bgra_transpose` are foreign C code. Each is a success/failure parameter (`nativeOk`), and one flag stands for every call of a run. `Geometry` gives the primitives their pixel meaning from their names: flip_vertical reverses the rows, flip_horizontal reverses each row, and transpose exchanges rows and columns. That meaning is an assumption, not a model of the C code.
- Raw pointers and `unsafe` blocks are left out. A bitmap is an integer id plus a format and a size.
- The `lazy_static!`/`static` initialisation is left out. The registry is the constant `Registry.Table`.
- The graph API (`OpCtxMut`, `replace_node`, `replace_node_with_existing`, `add_edge`, `delete_node_and_snap_together`) is not part of this model. A linear chain stands in for the graph, and replacement is a sequence splice. The Canvas edge is recorded on the node it feeds. Branching graphs and the engine's node-visiting order are not modelled.
- `NodeDefHelpers::rotate_frame_info`, `copy_frame_est_from_first_input` and `copy_frame_est_from_first_canvas` are not part of this model. They are assumed to swap, copy the input and copy the canvas estimate. The protected flips `FLIP_V`/`FLIP_H` (`MutProtect`) are assumed to copy the estimate and to flip in place.
- The execution of the canvas-allocation node is not part of this model. `Execute.Allocate` assumes it yields a fresh bitmap of exactly the requested format, width and height. That assumption is what keeps `FormatMismatch` unreachable after lowering.
- The estimator of the canvas-allocation node is not part of this model. Its frame is assumed to be the requested sizes narrowed back to `i32`, the requested format, and a meaningful alpha channel. The format conversion `s::PixelFormat::from` is assumed lossless, so one enumeration serves both.
- Consistency.CompositeEstimateMatchesFlattening: after transposes are lowered, agreement covers width, height and format only. The alpha flag then comes from the canvas estimator. Before lowering, the agreement is exact.
- Consistency.FlattenPreservesShape: covers width, height and format only, for the same reason.
- Consistency.LowerPreservesShape: covers width, height and format only, for the same reason.
- The `unwrap()` on a missing Input parent at lines 87 and 124 is left out. In a linear chain every node has an input.
- The panics at lines 104, 126, 130, 133 and 137 are modelled as the errors `UnknownUpstreamEstimate`, `InvalidNodeConnections` (a transpose_to_canvas without a Canvas parent), `FormatMismatch`, `AliasedBitmaps` and `TransposeFailed`. They are not process aborts.
- `expand` takes its parent's concrete `FrameInfo` (line 57), so an apply_orientation can only be expanded once its upstream estimate is known. The model keeps that precondition: the pass refuses such a node (`Lowering.OrientationAwaitsEstimate`). The frame's value is never read by `expand`, so it is not passed. The `p: &NodeParams` argument of `mutate` is unused in the source and is left out. Its context `c` and bitmap are modelled by `nativeOk` and `Bitmap`.
- Registry.FindFirst: the source has no lookup by fully qualified name, because nodes refer to descriptors by address. The lookup, and its first-match order, belong to this model. They show what the duplicated name at line 188 does to any consumer that keys descriptors by name.
- A bitmap id stands for its address, so one id names one bitmap (`Execute.TransposeToCanvasExec` requires this). Execution allocates canvases above every id in use.
- Node names, descriptions and the JSON schema are left out, apart from the `ApplyOrientation{flag}` and `CreateCanvas{w,h,format,color}` payloads.

## Findings

| source | as written | input that shows it | evidently intended | confidence | as-written member | corrected member |
|---|---|---|---|---|---|---|
| imageflow_core/src/flow/nodes/rotate_flip_transpose.rs:186-189 | `FlipHorizontalMutNodeDef::fqn` returns `"imazen.flip_vertical_mutate"`, the vertical primitive's name (line 168) | `FLIP_H_PRIMITIVE.fqn() == FLIP_V_PRIMITIVE.fqn()` (lines 168 and 188); under the model's name lookup, the horizontal primitive's name yields the vertical one | `"imazen.flip_horizontal_mutate"` | high (copy-paste of line 168); not executed | Registry.AsWrittenFlipNamesCollide | Registry.CorrectedLookupRoundTrip |

/** Execution of the primitives against bitmaps. The native library is
    represented only by whether each call succeeds (`nativeOk`); bitmaps
    are identified by an integer id standing for their address. */
module Execute {
  import opened Types
  import opened Nodes
  import opened Estimate
  import opened Rewrite
  import opened Lowering
  import opened Consistency

  datatype Bitmap = Bitmap(id: int, fmt: PixelFormat, w: nat, h: nat)

  /** What executing a node produced, and how many native calls it made. */
  datatype Outcome = Outcome(result: Result<Bitmap>, libraryCalls: nat)

  /** Execution of transpose_to_canvas. Mismatched formats, then aliased
      bitmaps, are refused before any native call; otherwise the library is
      called exactly once and, if it succeeds, the output is the canvas.
      An id stands for an address, so one id is one bitmap. */
  function TransposeToCanvasExec(input: Bitmap, canvas: Bitmap, nativeOk: bool): (o: Outcome)
    requires input.id == canvas.id ==> input == canvas
    ensures o.libraryCalls == (if input.fmt == canvas.fmt && input.id != canvas.id then 1 else 0)
    ensures o.result == Err(FormatMismatch) <==> input.fmt != canvas.fmt
    ensures o.result == Err(AliasedBitmaps) <==> input.id == canvas.id
    ensures o.result.Ok? <==> input.fmt == canvas.fmt && input.id != canvas.id && nativeOk
    ensures o.result.Ok? ==> o.result.value == canvas
    ensures o.result.Err? ==> o.result.error in {FormatMismatch, AliasedBitmaps, TransposeFailed}
  {
    if input.fmt != canvas.fmt then Outcome(Err(FormatMismatch), 0)
    else if input.id == canvas.id then Outcome(Err(AliasedBitmaps), 0)
    else if !nativeOk then Outcome(Err(TransposeFailed), 1)
    else Outcome(Ok(canvas), 1)
  }

  /** Execution of an in-place flip: one native call; the output is the
      same bitmap, which still has the shape the flip's estimate predicts,
      or a native error. */
  function FlipMutate(d: Def, bitmap: Bitmap, nativeOk: bool): (o: Outcome)
    requires d == FlipV || d == FlipH
    ensures o.libraryCalls == 1
    ensures o.result.Ok? <==> nativeOk
    ensures o.result.Ok? ==> o.result.value == bitmap
    ensures o.result.Err? ==> o.result.error == CError
    ensures forall fi :: Matches(bitmap, fi) && o.result.Ok? ==>
      Matches(o.result.value, NodeEstimate(Plain(d), Known(fi)).value.info)
  {
    Outcome(if nativeOk then Ok(bitmap) else Err(CError), 1)
  }

  /** The bitmap the canvas allocation feeding a node produces: a fresh id
      and the requested format and size. */
  function Allocate(c: CanvasParams, freshId: int): Bitmap {
    Bitmap(freshId, c.format, c.w, c.h)
  }

  /** Execute one node of a flattened pipeline on its Input bitmap; a
      canvas it needs is allocated under `freshId`, above every id in use.
      A node with no execute step is an internal error. */
  function ExecuteNode(n: Node, input: Bitmap, freshId: int, nativeOk: bool): (o: Outcome)
    requires input.id < freshId
    ensures !IsPrimitive(n.def) ==> o == Outcome(Err(NotExecutable), 0)
    ensures o.result.Err? ==> o.result.error != AliasedBitmaps
    ensures o.result.Ok? ==> o.result.value.id <= freshId
    ensures o.libraryCalls <= 1
  {
    match n.def
    case FlipV => FlipMutate(FlipV, input, nativeOk)
    case FlipH => FlipMutate(FlipH, input, nativeOk)
    case TransposeToCanvas =>
      (match n.canvas
       case CanvasFrom(c) => TransposeToCanvasExec(input, Allocate(c, freshId), nativeOk)
       case NoCanvas => Outcome(Err(InvalidNodeConnections), 0))
    case _ => Outcome(Err(NotExecutable), 0)
  }

  /** Execute a flattened pipeline from its source bitmap. Canvas
      allocations take ids from `freshId` upward. */
  function ExecuteChain(p: seq<Node>, input: Bitmap, freshId: int, nativeOk: bool): Outcome
    requires input.id < freshId
    decreases |p|
  {
    if |p| == 0 then Outcome(Ok(input), 0)
    else
      var o := ExecuteNode(p[0], input, freshId, nativeOk);
      match o.result
      case Err(e) => o
      case Ok(out) =>
        var rest := ExecuteChain(p[1..], out, freshId + 1, nativeOk);
        Outcome(rest.result, o.libraryCalls + rest.libraryCalls)
  }

  /** A bitmap has exactly the estimated width, height and format. */
  predicate Matches(b: Bitmap, fi: FrameInfo) {
    b.w == fi.w && b.h == fi.h && b.fmt == fi.fmt
  }

  /** Lowering cannot build a graph that trips the execution-time checks:
      when the source bitmap matches the source estimate and canvas ids are
      fresh, every transpose_to_canvas sees equal formats and distinct
      bitmaps, the only possible failures are native ones, and when the
      library succeeds each primitive calls it exactly once and the output
      bitmap has exactly the estimated shape. */
  lemma {:induction false} LoweredPipelineExecutes(p: seq<Node>, fi: FrameInfo, input: Bitmap, freshId: int, nativeOk: bool)
    requires forall i :: 0 <= i < |p| ==> p[i].def in {Transpose, FlipV, FlipH}
    requires Matches(input, fi)
    requires input.id < freshId
    ensures Lower(p, Known(fi)).Ok?
    ensures var q := Lower(p, Known(fi)).value;
      var o := ExecuteChain(q, input, freshId, nativeOk);
      (o.result.Err? ==> o.result.error in {TransposeFailed, CError}) &&
      ChainEstimate(q, Known(fi)).Ok? && ChainEstimate(q, Known(fi)).value.Known? &&
      (nativeOk ==> o.result.Ok? && o.libraryCalls == |q| &&
                    Matches(o.result.value, ChainEstimate(q, Known(fi)).value.info))
    decreases |p|
  {
    if |p| > 0 {
      var m := if p[0].def == Transpose then TransposeFlatten(Known(fi)).value else p[0];
      var next := NodeEstimate(m, Known(fi)).value;
      assert next.Known?;
      var o := ExecuteNode(m, input, freshId, nativeOk);
      if p[0].def == Transpose {
        TruncAsUsizeRoundTrip(fi.w);
        TruncAsUsizeRoundTrip(fi.h);
      }
      LowerSucceedsOnFlipsAndTransposes(p, Known(fi));
      if o.result.Ok? {
        LoweredPipelineExecutes(p[1..], next.info, o.result.value, freshId + 1, nativeOk);
      }
      var q' := Lower(p[1..], next).value;
      assert Lower(p, Known(fi)).value == [m] + q';
      assert ([m] + q')[1..] == q';
    }
  }

  lemma {:induction false} LowerSucceedsOnFlipsAndTransposes(p: seq<Node>, e: FrameEstimate)
    requires forall i :: 0 <= i < |p| ==> p[i].def in {Transpose, FlipV, FlipH}
    requires e.Known?
    ensures Lower(p, e).Ok?
    ensures ChainEstimate(Lower(p, e).value, e).Ok? && ChainEstimate(Lower(p, e).value, e).value.Known?
    decreases |p|
  {
    if |p| > 0 {
      var m := if p[0].def == Transpose then TransposeFlatten(e).value else p[0];
      var next := NodeEstimate(m, e).value;
      LowerSucceedsOnFlipsAndTransposes(p[1..], next);
      var q' := Lower(p[1..], next).value;
      assert Lower(p, e).value == [m] + q';
      assert ([m] + q')[1..] == q';
    }
  }

  /** End to end: a well-formed pipeline authored without canvas copies,
      run from a bitmap that matches the source estimate, flattens; its
      execution can fail only inside the native library, never on a format
      mismatch, an aliased canvas or a node without an execute step; and
      when the library succeeds it is called once per primitive and the
      final bitmap has the width, height and format the original pipeline
      was estimated to produce. */
  lemma {:induction false} FlattenedPipelineExecutes(p: seq<Node>, fi: FrameInfo, input: Bitmap, freshId: int, nativeOk: bool)
    requires AllWellFormed(p)
    requires forall i :: 0 <= i < |p| ==> p[i].def != TransposeToCanvas
    requires Matches(input, fi)
    requires input.id < freshId
    ensures Flatten(p, Known(fi)).Ok?
    ensures ChainEstimate(p, Known(fi)).Ok? && ChainEstimate(p, Known(fi)).value.Known?
    ensures var q := Flatten(p, Known(fi)).value;
      var o := ExecuteChain(q, input, freshId, nativeOk);
      (o.result.Err? ==> o.result.error in {TransposeFailed, CError}) &&
      (nativeOk ==> o.result.Ok? && o.libraryCalls == |q| &&
                    Matches(o.result.value, ChainEstimate(p, Known(fi)).value.info))
  {
    FlattenSucceeds(p, Known(fi));
    UnfoldSucceeds(p);
    var u := Unfold(p).value;
    UnfoldOrigins(p);
    forall i | 0 <= i < |u| ensures u[i].def in {Transpose, FlipV, FlipH} {
      assert FromOrInserted(u[i], p);
      assert IsBasis(u[i].def);
    }
    LoweredPipelineExecutes(u, fi, input, freshId, nativeOk);
    FlattenPreservesShape(p, Known(fi));
  }
}

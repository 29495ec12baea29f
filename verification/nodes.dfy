/** Pipeline nodes: which descriptor a node instantiates, its parameter
    payload, and the Canvas edge a shape-changing primitive reads from.
    A linear pipeline is a `seq<Node>`; each node's Input edge is the node
    before it (or the pipeline's source for the first node). */
module Nodes {
  import opened Types

  /** The descriptors defined by the orientation core. FlipV and FlipH are
      the protected in-place flips; TransposeToCanvas is the copy primitive
      that writes into a separate canvas. */
  datatype Def =
    | ApplyOrientation
    | Rot90
    | Rot180
    | Rot270
    | Transpose
    | TransposeToCanvas
    | FlipV
    | FlipH
    | NoOp

  /** The canvas-allocation request placed in front of a transpose. */
  datatype CanvasParams = CanvasParams(w: nat, h: nat, format: PixelFormat, color: Color)

  /** Parameter payload of a node. */
  datatype NodeParams =
    | NoParams
    | ApplyOrientationParams(flag: int)
    | CreateCanvasParams(canvas: CanvasParams)

  /** The Canvas edge into a node, if any: the allocation that feeds it. */
  datatype CanvasEdge = NoCanvas | CanvasFrom(alloc: CanvasParams)

  datatype Node = Node(def: Def, params: NodeParams, canvas: CanvasEdge)

  datatype EdgeKind = Input | Canvas

  /** A replacement node as the rewrite rules create it: no parameters and
      no canvas. */
  function Plain(d: Def): (n: Node)
    ensures n.def == d && n.params.NoParams? && n.canvas.NoCanvas?
  {
    Node(d, NoParams, NoCanvas)
  }

  /** The kinds of the edges that enter a node of a linear pipeline. */
  function InboundEdges(n: Node): (es: seq<EdgeKind>)
    ensures |es| >= 1 && es[0] == Input
    ensures Canvas in es <==> n.canvas.CanvasFrom?
  {
    if n.canvas.CanvasFrom? then [Input, Canvas] else [Input]
  }

  /** Composites replaced by a fixed node list whatever the frame shape. */
  predicate IsExpandable(d: Def) {
    d in {ApplyOrientation, Rot90, Rot180, Rot270, NoOp}
  }

  /** Descriptors executed directly against bitmaps. */
  predicate IsPrimitive(d: Def) {
    d in {FlipV, FlipH, TransposeToCanvas}
  }

  /** What remains once every expandable composite is gone: the primitives
      and the shape-dependent Transpose. */
  predicate IsBasis(d: Def) {
    d in {FlipV, FlipH, Transpose, TransposeToCanvas}
  }

  /** How far a descriptor is from the primitives; every rewrite rule emits
      only descriptors of strictly smaller rank. */
  function Rank(d: Def): (r: nat)
    ensures r == 0 <==> IsPrimitive(d)
    ensures r >= 2 <==> IsExpandable(d) && d != NoOp
  {
    match d
    case ApplyOrientation => 3
    case Rot90 => 2
    case Rot180 => 2
    case Rot270 => 2
    case Transpose => 1
    case NoOp => 1
    case _ => 0
  }

  /** Inbound-edge discipline: the copy primitive that writes to a new
      buffer has one Input and one Canvas edge, every other node only its
      Input edge. */
  predicate EdgesWellFormed(n: Node) {
    InboundEdges(n) == if n.def == TransposeToCanvas then [Input, Canvas] else [Input]
  }

  /** A node as a well-built pipeline holds it: an apply_orientation node
      carries an ApplyOrientation payload, and the edges follow the
      descriptor's discipline. */
  predicate WellFormed(n: Node) {
    EdgesWellFormed(n) && (n.def == ApplyOrientation ==> n.params.ApplyOrientationParams?)
  }

  predicate AllWellFormed(p: seq<Node>) {
    forall i :: 0 <= i < |p| ==> WellFormed(p[i])
  }

  predicate AllBasis(p: seq<Node>) {
    forall i :: 0 <= i < |p| ==> IsBasis(p[i].def)
  }

  predicate AllPrimitive(p: seq<Node>) {
    forall i :: 0 <= i < |p| ==> IsPrimitive(p[i].def)
  }
}

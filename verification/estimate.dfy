/** Frame-shape estimation: what each descriptor says about its output
    frame, given the estimate of its input, and the estimate at the end of
    a linear pipeline. */
module Estimate {
  import opened Types
  import opened Nodes

  /** A frame with width and height exchanged; format and alpha kept. */
  function Swapped(fi: FrameInfo): (r: FrameInfo)
    ensures r.w == fi.h && r.h == fi.w
    ensures r.fmt == fi.fmt && r.alphaMeaningful == fi.alphaMeaningful
  {
    fi.(w := fi.h, h := fi.w)
  }

  /** The shared "rotate frame info" estimator used by transpose, rot90 and
      rot270: swap a known frame, leave an unknown one unknown. */
  function RotateFrameInfo(e: FrameEstimate): (r: FrameEstimate)
    ensures e.Unknown? <==> r.Unknown?
    ensures e.Known? ==> r.info == Swapped(e.info)
  {
    match e
    case Unknown => Unknown
    case Known(fi) => Known(Swapped(fi))
  }

  /** Estimate of apply_orientation: the payload must be an ApplyOrientation
      payload; a known frame has its width and height exchanged exactly for
      flags 5 to 8. */
  function ApplyOrientationEstimate(p: NodeParams, input: FrameEstimate): (r: Result<FrameEstimate>)
    ensures r.Err? <==> !p.ApplyOrientationParams?
    ensures r.Err? ==> r.error == NodeParamsMismatch
    ensures r.Ok? ==> (r.value.Unknown? <==> input.Unknown?)
    ensures r.Ok? && input.Known? ==>
      var fi, out := input.info, r.value.info;
      out.fmt == fi.fmt && out.alphaMeaningful == fi.alphaMeaningful &&
      (if 5 <= p.flag <= 8 then out.w == fi.h && out.h == fi.w
       else out.w == fi.w && out.h == fi.h)
  {
    match p
    case ApplyOrientationParams(flag) =>
      (match input
       case Unknown => Ok(Unknown)
       case Known(fi) =>
         var swap := flag >= 5 && flag <= 8;
         Ok(Known(FrameInfo(if swap then fi.h else fi.w,
                            if swap then fi.w else fi.h,
                            fi.fmt, fi.alphaMeaningful))))
    case _ => Err(NodeParamsMismatch)
  }

  /** The frame a canvas allocation reports: its sizes narrowed back to
      32 bits, the requested format, and a meaningful alpha channel. */
  function CanvasFrame(c: CanvasParams): (fi: FrameInfo)
    ensures fi.fmt == c.format
    ensures c.w < 0x8000_0000 ==> fi.w == c.w
    ensures c.h < 0x8000_0000 ==> fi.h == c.h
  {
    FrameInfo(TruncI32(c.w), TruncI32(c.h), c.format, true)
  }

  /** The estimate each descriptor produces from its input estimate. */
  function NodeEstimate(n: Node, input: FrameEstimate): (r: Result<FrameEstimate>)
    ensures n.def != ApplyOrientation && n.def != TransposeToCanvas ==> r.Ok?
    ensures n.def in {Rot180, NoOp, FlipV, FlipH} ==> r == Ok(input)
    ensures n.def in {Transpose, Rot90, Rot270} ==> r == Ok(RotateFrameInfo(input))
    ensures n.def == TransposeToCanvas ==>
      r == if n.canvas.CanvasFrom? then Ok(Known(CanvasFrame(n.canvas.alloc)))
           else Err(InvalidNodeConnections)
  {
    match n.def
    case ApplyOrientation => ApplyOrientationEstimate(n.params, input)
    case Transpose => Ok(RotateFrameInfo(input))
    case Rot90 => Ok(RotateFrameInfo(input))
    case Rot270 => Ok(RotateFrameInfo(input))
    case Rot180 => Ok(input)
    case NoOp => Ok(input)
    case FlipV => Ok(input)
    case FlipH => Ok(input)
    case TransposeToCanvas =>
      (match n.canvas
       case CanvasFrom(c) => Ok(Known(CanvasFrame(c)))
       case NoCanvas => Err(InvalidNodeConnections))
  }

  /** The estimate at the end of a linear pipeline, or the first error. */
  function ChainEstimate(p: seq<Node>, input: FrameEstimate): Result<FrameEstimate>
    decreases |p|
  {
    if |p| == 0 then Ok(input)
    else
      var next :- NodeEstimate(p[0], input);
      ChainEstimate(p[1..], next)
  }

  /** Estimating a concatenation is estimating the first part, then the
      second from where the first left off. */
  lemma {:induction false} ChainAppend(a: seq<Node>, b: seq<Node>, input: FrameEstimate)
    ensures ChainEstimate(a + b, input) ==
      match ChainEstimate(a, input)
      case Err(e) => Err(e)
      case Ok(mid) => ChainEstimate(b, mid)
    decreases |a|
  {
    if |a| == 0 {
      assert a + b == b;
    } else {
      assert (a + b)[0] == a[0];
      assert (a + b)[1..] == a[1..] + b;
      match NodeEstimate(a[0], input)
      case Err(e) =>
      case Ok(next) => ChainAppend(a[1..], b, next);
    }
  }

  /** No estimator looks at anything but width, height and format, so two
      inputs of the same shape give outcomes of the same shape. */
  lemma {:induction false} NodeEstimateRespectsShape(n: Node, a: FrameEstimate, b: FrameEstimate)
    requires SameShape(a, b)
    ensures SameOutcome(NodeEstimate(n, a), NodeEstimate(n, b))
  {
  }

  lemma {:induction false} ChainRespectsShape(p: seq<Node>, a: FrameEstimate, b: FrameEstimate)
    requires SameShape(a, b)
    ensures SameOutcome(ChainEstimate(p, a), ChainEstimate(p, b))
    decreases |p|
  {
    if |p| > 0 {
      NodeEstimateRespectsShape(p[0], a, b);
      match NodeEstimate(p[0], a)
      case Err(e) =>
      case Ok(na) =>
        ChainRespectsShape(p[1..], na, NodeEstimate(p[0], b).value);
    }
  }
}

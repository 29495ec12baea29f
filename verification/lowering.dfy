/** The shape-dependent rewrite of transpose: a canvas allocation sized
    from the upstream estimate feeds a new transpose_to_canvas node through
    a Canvas edge, and that node takes the transpose's place. Flatten is the
    whole pass: refuse an apply_orientation that would be expanded without
    an upstream estimate, Unfold, then lower every transpose along the
    running estimate. */
module Lowering {
  import opened Types
  import opened Nodes
  import opened Estimate
  import opened Rewrite

  /** Flatten step of transpose, given its upstream estimate. An unknown
      estimate is fatal. Otherwise the result is a transpose_to_canvas node
      with well-formed edges whose canvas is transparent, of the upstream
      format, and reports exactly the rotated shape of the upstream frame;
      for non-negative sizes the allocation is h wide and w high. */
  function TransposeFlatten(upstream: FrameEstimate): (r: Result<Node>)
    ensures r.Err? <==> upstream.Unknown?
    ensures r.Err? ==> r.error == UnknownUpstreamEstimate
    ensures r.Ok? ==>
      var n := r.value;
      n.def == TransposeToCanvas && n.params.NoParams? && EdgesWellFormed(n) &&
      n.canvas.alloc.color == Transparent &&
      n.canvas.alloc.format == upstream.info.fmt &&
      NodeEstimate(n, upstream).Ok? &&
      SameShape(NodeEstimate(n, upstream).value, RotateFrameInfo(upstream))
    ensures r.Ok? && upstream.info.w >= 0 && upstream.info.h >= 0 ==>
      r.value.canvas.alloc.w == upstream.info.h && r.value.canvas.alloc.h == upstream.info.w
  {
    match upstream
    case Unknown => Err(UnknownUpstreamEstimate)
    case Known(fi) =>
      TruncAsUsizeRoundTrip(fi.w);
      TruncAsUsizeRoundTrip(fi.h);
      var canvas := CanvasParams(AsUsize(fi.h), AsUsize(fi.w), fi.fmt, Transparent);
      Ok(Node(TransposeToCanvas, NoParams, CanvasFrom(canvas)))
  }

  /** Lower every transpose of a pipeline along the running estimate,
      starting from the source estimate `input`; every other node is kept
      as it is. The first estimation or flattening error aborts the pass. */
  function Lower(p: seq<Node>, input: FrameEstimate): (r: Result<seq<Node>>)
    ensures r.Ok? ==> |r.value| == |p| && ChainEstimate(r.value, input).Ok?
    ensures r.Ok? ==> forall i :: 0 <= i < |p| ==>
      (if p[i].def == Transpose then r.value[i].def == TransposeToCanvas && EdgesWellFormed(r.value[i])
       else r.value[i] == p[i])
    decreases |p|
  {
    if |p| == 0 then Ok([])
    else
      var m :- if p[0].def == Transpose then TransposeFlatten(input) else Ok(p[0]);
      var next :- NodeEstimate(m, input);
      var q :- Lower(p[1..], next);
      Ok([m] + q)
  }

  /** apply_orientation is expanded with its parent's frame info, so it
      cannot be expanded while the estimate reaching it is unknown. Holds
      when, estimating `p` from `input`, some apply_orientation node is
      reached with an unknown estimate. */
  predicate OrientationAwaitsEstimate(p: seq<Node>, input: FrameEstimate)
    decreases |p|
  {
    |p| > 0 &&
    ((p[0].def == ApplyOrientation && input.Unknown?) ||
     (NodeEstimate(p[0], input).Ok? && OrientationAwaitsEstimate(p[1..], NodeEstimate(p[0], input).value)))
  }

  /** The complete flatten pass over a linear pipeline. */
  function Flatten(p: seq<Node>, input: FrameEstimate): (r: Result<seq<Node>>)
    ensures r.Ok? ==> AllPrimitive(r.value) && ChainEstimate(r.value, input).Ok?
    ensures r.Ok? ==> Unfold(p).Ok? && |r.value| == |Unfold(p).value|
  {
    if OrientationAwaitsEstimate(p, input) then Err(UnknownUpstreamEstimate)
    else
      var q :- Unfold(p);
      Lower(q, input)
  }

  /** From a known source frame every estimate along a pipeline is known,
      so no apply_orientation is ever left waiting for one. */
  lemma {:induction false} KnownInputIsReady(p: seq<Node>, fi: FrameInfo)
    ensures !OrientationAwaitsEstimate(p, Known(fi))
    decreases |p|
  {
    if |p| > 0 {
      var r := NodeEstimate(p[0], Known(fi));
      if r.Ok? {
        assert r.value.Known?;
        KnownInputIsReady(p[1..], r.value.info);
      }
    }
  }

  /** A pipeline without apply_orientation never waits for an estimate. */
  lemma {:induction false} NoOrientationIsReady(p: seq<Node>, input: FrameEstimate)
    requires forall i :: 0 <= i < |p| ==> p[i].def != ApplyOrientation
    ensures !OrientationAwaitsEstimate(p, input)
    decreases |p|
  {
    if |p| > 0 && NodeEstimate(p[0], input).Ok? {
      NoOrientationIsReady(p[1..], NodeEstimate(p[0], input).value);
    }
  }

  lemma {:induction false} OrientationAwaitsAt(a: seq<Node>, n: Node, b: seq<Node>, input: FrameEstimate)
    requires n.def == ApplyOrientation
    requires ChainEstimate(a, input) == Ok(Unknown)
    ensures OrientationAwaitsEstimate(a + [n] + b, input)
    decreases |a|
  {
    if |a| == 0 {
      assert (a + [n] + b)[0] == n;
    } else {
      assert (a + [n] + b)[0] == a[0];
      assert (a + [n] + b)[1..] == a[1..] + [n] + b;
      var next := NodeEstimate(a[0], input).value;
      OrientationAwaitsAt(a[1..], n, b, next);
    }
  }

  /** An apply_orientation reached with an unknown estimate stops the pass
      with UnknownUpstreamEstimate, whatever precedes and follows it. */
  lemma {:induction false} FlattenOrientationNeedsEstimate(a: seq<Node>, n: Node, b: seq<Node>, input: FrameEstimate)
    requires n.def == ApplyOrientation
    requires ChainEstimate(a, input) == Ok(Unknown)
    ensures Flatten(a + [n] + b, input) == Err(UnknownUpstreamEstimate)
  {
    OrientationAwaitsAt(a, n, b, input);
  }

  /** A pipeline of primitives whose estimation succeeds is left exactly as
      it is by lowering. */
  lemma {:induction false} LowerPrimitiveIdentity(p: seq<Node>, input: FrameEstimate)
    requires AllPrimitive(p)
    requires ChainEstimate(p, input).Ok?
    ensures Lower(p, input) == Ok(p)
    decreases |p|
  {
    if |p| > 0 {
      var next := NodeEstimate(p[0], input).value;
      LowerPrimitiveIdentity(p[1..], next);
      assert [p[0]] + p[1..] == p;
    }
  }

  /** Lowering succeeds on a well-formed pipeline with nothing left to
      unfold, once the source frame is known, and keeps it well formed. */
  lemma {:induction false} LowerSucceeds(p: seq<Node>, input: FrameEstimate)
    requires AllBasis(p) && AllWellFormed(p)
    requires input.Known?
    ensures Lower(p, input).Ok?
    ensures AllWellFormed(Lower(p, input).value)
    decreases |p|
  {
    if |p| > 0 {
      var m := if p[0].def == Transpose then TransposeFlatten(input).value else p[0];
      var next := NodeEstimate(m, input).value;
      LowerSucceeds(p[1..], next);
      var q := Lower(p[1..], next).value;
      assert Lower(p, input).value == [m] + q;
      forall i | 0 <= i < |p| ensures WellFormed(Lower(p, input).value[i]) {
        if i > 0 {
          assert Lower(p, input).value[i] == q[i - 1];
        }
      }
    }
  }

  /** Flatten succeeds on every well-formed pipeline whose source frame is
      known, and the result is well formed: each transpose_to_canvas has
      exactly one Input and one Canvas edge, every flip only its Input. */
  lemma {:induction false} FlattenSucceeds(p: seq<Node>, input: FrameEstimate)
    requires AllWellFormed(p)
    requires input.Known?
    ensures Flatten(p, input).Ok?
    ensures AllWellFormed(Flatten(p, input).value)
  {
    KnownInputIsReady(p, input.info);
    UnfoldSucceeds(p);
    UnfoldKeepsWellFormed(p);
    LowerSucceeds(Unfold(p).value, input);
  }

  /** A pipeline of primitives only, whose estimation succeeds, is its own
      flattening. */
  lemma {:induction false} FlattenPrimitiveIdentity(p: seq<Node>, input: FrameEstimate)
    requires AllPrimitive(p)
    requires ChainEstimate(p, input).Ok?
    ensures Flatten(p, input) == Ok(p)
  {
    assert AllBasis(p);
    NoOrientationIsReady(p, input);
    UnfoldBasisIsIdentity(p);
    LowerPrimitiveIdentity(p, input);
  }

  /** Flattening an already flattened pipeline changes nothing. */
  lemma {:induction false} FlattenIdempotent(p: seq<Node>, input: FrameEstimate)
    requires Flatten(p, input).Ok?
    ensures Flatten(Flatten(p, input).value, input) == Flatten(p, input)
  {
    FlattenPrimitiveIdentity(Flatten(p, input).value, input);
  }

  /** Lowering stops at the first transpose reached with an unknown
      estimate. `f` is the estimate the original pipeline would carry and
      `e` the one the lowered prefix carries; they agree on shape. */
  lemma {:induction false} LowerStopsAtBlindTranspose(a: seq<Node>, b: seq<Node>, e: FrameEstimate, f: FrameEstimate)
    requires SameShape(e, f)
    requires ChainEstimate(a, f) == Ok(Unknown)
    ensures Lower(a + [Plain(Transpose)] + b, e) == Err(UnknownUpstreamEstimate)
    decreases |a|
  {
    var p := a + [Plain(Transpose)] + b;
    if |a| == 0 {
      assert p[0] == Plain(Transpose);
    } else {
      assert p[0] == a[0];
      assert p[1..] == a[1..] + [Plain(Transpose)] + b;
      if a[0].def == Transpose {
        if e.Known? {
          var m := TransposeFlatten(e).value;
          var ne := NodeEstimate(m, e).value;
          var nf := NodeEstimate(a[0], f).value;
          assert SameShape(ne, nf);
          LowerStopsAtBlindTranspose(a[1..], b, ne, nf);
        }
      } else {
        NodeEstimateRespectsShape(a[0], e, f);
        var ne := NodeEstimate(a[0], e).value;
        var nf := NodeEstimate(a[0], f).value;
        LowerStopsAtBlindTranspose(a[1..], b, ne, nf);
      }
    }
  }
}

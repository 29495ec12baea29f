/** Estimate consistency: the shape the estimator predicts for a composite
    node is the shape its full flattening actually produces. This is what
    makes the canvas allocated for each transpose the right size. */
module Consistency {
  import opened Types
  import opened Nodes
  import opened Estimate
  import opened Rewrite
  import opened Lowering

  /** Each rewrite rule is estimate-neutral: the replacement, estimated
      node by node, predicts exactly what the composite predicts. */
  lemma {:induction false} ExpandPreservesEstimate(n: Node, input: FrameEstimate)
    requires IsExpandable(n.def)
    requires Expand(n).Ok?
    ensures ChainEstimate(Expand(n).value, input) == NodeEstimate(n, input)
  {
    var rep := Expand(n).value;
    if n.def == ApplyOrientation {
      var flag := n.params.flag;
      if flag == 7 {
        assert rep == [Plain(Rot180), Plain(Transpose)];
        assert ChainEstimate(rep[1..], NodeEstimate(rep[0], input).value)
            == ChainEstimate([Plain(Transpose)], input);
      } else if 2 <= flag <= 8 {
        assert |rep| == 1;
      }
    } else if n.def != NoOp {
      assert ChainEstimate(rep[1..], NodeEstimate(rep[0], input).value)
          == ChainEstimate([rep[1]], NodeEstimate(rep[0], input).value);
    }
  }

  /** Unfolding never changes what a pipeline is estimated to produce, and
      never turns a failing estimate into a successful one. */
  lemma {:induction false} UnfoldPreservesEstimate(p: seq<Node>, input: FrameEstimate)
    requires Unfold(p).Ok?
    ensures ChainEstimate(Unfold(p).value, input) == ChainEstimate(p, input)
    decreases Weight(p)
  {
    if |p| > 0 {
      if IsExpandable(p[0].def) {
        var rep := Expand(p[0]).value;
        assert p == [p[0]] + p[1..];
        ExpandLowersWeight(p[0], rep, p[1..]);
        UnfoldPreservesEstimate(rep + p[1..], input);
        ChainAppend(rep, p[1..], input);
        ExpandPreservesEstimate(p[0], input);
      } else {
        assert Weight(p[1..]) < Weight(p);
        var q := Unfold(p[1..]).value;
        assert Unfold(p).value == [p[0]] + q;
        match NodeEstimate(p[0], input)
        case Err(e) =>
        case Ok(next) =>
          UnfoldPreservesEstimate(p[1..], next);
          assert ([p[0]] + q)[1..] == q;
      }
    }
  }

  /** Lowering replaces each transpose by a copy into a canvas of the
      rotated shape, so the lowered pipeline ends in the same shape as the
      original, even when started from a different estimate of that shape. */
  lemma {:induction false} LowerPreservesShape(p: seq<Node>, a: FrameEstimate, b: FrameEstimate)
    requires SameShape(a, b)
    requires Lower(p, a).Ok?
    ensures SameOutcome(ChainEstimate(Lower(p, a).value, a), ChainEstimate(p, b))
    decreases |p|
  {
    if |p| > 0 {
      var m := if p[0].def == Transpose then TransposeFlatten(a).value else p[0];
      var na := NodeEstimate(m, a).value;
      var q := Lower(p[1..], na).value;
      assert Lower(p, a).value == [m] + q;
      assert ([m] + q)[1..] == q;
      NodeEstimateRespectsShape(p[0], a, b);
      var nb := NodeEstimate(p[0], b).value;
      assert SameShape(na, nb);
      LowerPreservesShape(p[1..], na, nb);
    }
  }

  /** The complete flatten pass is shape-neutral: width, height and pixel
      format at the end of the flattened pipeline are those the original
      pipeline was estimated to produce. */
  lemma {:induction false} FlattenPreservesShape(p: seq<Node>, input: FrameEstimate)
    requires Flatten(p, input).Ok?
    ensures ChainEstimate(p, input).Ok?
    ensures SameShape(ChainEstimate(Flatten(p, input).value, input).value, ChainEstimate(p, input).value)
  {
    var q := Unfold(p).value;
    UnfoldPreservesEstimate(p, input);
    LowerPreservesShape(q, input, input);
  }

  /** The estimate of every composite (apply_orientation with any flag,
      rot90, rot180, rot270, noop, transpose) equals the chained estimates
      of its full flattening, on any known input frame: rot90, rot270 and
      transpose swap width and height, rot180 and noop keep them, and
      apply_orientation swaps exactly for flags 5 to 8. Before transposes
      are lowered the agreement is exact, alpha flag included. */
  lemma {:induction false} CompositeEstimateMatchesFlattening(n: Node, fi: FrameInfo)
    requires IsExpandable(n.def) || n.def == Transpose
    requires WellFormed(n)
    ensures Unfold([n]).Ok? && ChainEstimate(Unfold([n]).value, Known(fi)) == NodeEstimate(n, Known(fi))
    ensures Flatten([n], Known(fi)).Ok?
    ensures NodeEstimate(n, Known(fi)).Ok?
    ensures SameShape(ChainEstimate(Flatten([n], Known(fi)).value, Known(fi)).value,
                      NodeEstimate(n, Known(fi)).value)
    ensures var out := NodeEstimate(n, Known(fi)).value.info;
      out.fmt == fi.fmt &&
      (if n.def in {Rot90, Rot270, Transpose} ||
          (n.def == ApplyOrientation && 5 <= n.params.flag <= 8)
       then out.w == fi.h && out.h == fi.w
       else out.w == fi.w && out.h == fi.h)
  {
    FlattenSucceeds([n], Known(fi));
    UnfoldPreservesEstimate([n], Known(fi));
    FlattenPreservesShape([n], Known(fi));
    assert ChainEstimate([n], Known(fi)) == NodeEstimate(n, Known(fi));
  }

  /** A transpose reached with an unknown estimate cannot be flattened,
      wherever it stands: the pass fails, and unless the pipeline already
      fails to unfold, it fails on the missing estimate. */
  lemma {:induction false} FlattenTransposeNeedsEstimate(a: seq<Node>, b: seq<Node>, input: FrameEstimate)
    requires ChainEstimate(a, input) == Ok(Unknown)
    ensures Flatten(a + [Plain(Transpose)] + b, input).Err?
    ensures Unfold(a).Ok? && Unfold(b).Ok? ==>
      Flatten(a + [Plain(Transpose)] + b, input) == Err(UnknownUpstreamEstimate)
  {
    var t := [Plain(Transpose)];
    var p := a + t + b;
    UnfoldConcat(a + t, b);
    UnfoldConcat(a, t);
    UnfoldBasisIsIdentity(t);
    if !OrientationAwaitsEstimate(p, input) && Unfold(p).Ok? {
      var ua, ub := Unfold(a).value, Unfold(b).value;
      assert Unfold(p).value == ua + t + ub;
      UnfoldPreservesEstimate(a, input);
      LowerStopsAtBlindTranspose(ua, ub, input, input);
    }
  }

  function CountTransposes(p: seq<Node>): nat
    decreases |p|
  {
    if |p| == 0 then 0
    else (if p[0].def in {Transpose, TransposeToCanvas} then 1 else 0) + CountTransposes(p[1..])
  }

  /** Over flips and transposes, a known frame comes out swapped exactly
      when the pipeline holds an odd number of transposes. */
  lemma {:induction false} ParityDecidesSwap(p: seq<Node>, fi: FrameInfo)
    requires forall i :: 0 <= i < |p| ==> p[i].def in {Transpose, FlipV, FlipH}
    ensures ChainEstimate(p, Known(fi)) ==
      Ok(Known(if CountTransposes(p) % 2 == 1 then Swapped(fi) else fi))
    decreases |p|
  {
    if |p| > 0 {
      var next := NodeEstimate(p[0], Known(fi)).value.info;
      ParityDecidesSwap(p[1..], next);
    }
  }

  /** The fully unfolded orientation holds an odd number of transposes
      exactly for flags 5 to 8, and none of the canvas copies yet. */
  lemma {:induction false} OrientationTransposeParity(flag: int)
    ensures Unfold([Plain(ApplyOrientation).(params := ApplyOrientationParams(flag))]).Ok?
    ensures var q := Unfold([Plain(ApplyOrientation).(params := ApplyOrientationParams(flag))]).value;
      (CountTransposes(q) % 2 == 1 <==> 5 <= flag <= 8)
  {
    var n := Plain(ApplyOrientation).(params := ApplyOrientationParams(flag));
    UnfoldSucceeds([n]);
    var q := Unfold([n]).value;
    UnfoldOrigins([n]);
    assert forall i :: 0 <= i < |q| ==> q[i].def in {Transpose, FlipV, FlipH};
    var fi := FrameInfo(1, 2, Bgra32, true);
    ParityDecidesSwap(q, fi);
    UnfoldPreservesEstimate([n], Known(fi));
    assert ChainEstimate([n], Known(fi)) == NodeEstimate(n, Known(fi));
  }
}

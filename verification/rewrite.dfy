/** The shape-independent rewrite rules (apply_orientation, rot90, rot180,
    rot270, noop) and Unfold, which splices their replacements into a linear
    pipeline until none of those composites remains. */
module Rewrite {
  import opened Types
  import opened Nodes

  /** The replacement descriptors for an EXIF orientation flag. Flags
      outside 2..8 (1 included) have no replacement: the node disappears. */
  function OrientationReplacement(flag: int): seq<Def> {
    match flag
    case 7 => [Rot180, Transpose]
    case 8 => [Rot90]
    case 6 => [Rot270]
    case 5 => [Transpose]
    case 4 => [FlipV]
    case 3 => [Rot180]
    case 2 => [FlipH]
    case _ => []
  }

  function PlainAll(ds: seq<Def>): (ns: seq<Node>)
    ensures |ns| == |ds|
    ensures forall i :: 0 <= i < |ns| ==> ns[i] == Plain(ds[i])
  {
    if |ds| == 0 then [] else [Plain(ds[0])] + PlainAll(ds[1..])
  }

  /** Expansion of apply_orientation: a parameter mismatch for any payload
      but ApplyOrientation; otherwise at most two parameterless nodes, all of
      lower rank, and none at all exactly when the flag is outside 2..8. */
  function ApplyOrientationExpand(p: NodeParams): (r: Result<seq<Node>>)
    ensures r.Err? <==> !p.ApplyOrientationParams?
    ensures r.Err? ==> r.error == NodeParamsMismatch
    ensures r.Ok? ==> |r.value| <= 2
    ensures r.Ok? ==> forall i :: 0 <= i < |r.value| ==>
      Rank(r.value[i].def) < Rank(ApplyOrientation) && r.value[i] == Plain(r.value[i].def)
    ensures r.Ok? ==> (r.value == [] <==> !(2 <= p.flag <= 8))
  {
    match p
    case ApplyOrientationParams(flag) => Ok(PlainAll(OrientationReplacement(flag)))
    case _ => Err(NodeParamsMismatch)
  }

  /** The fixed two-node expansions of the three rotations. */
  function RotationExpand(d: Def): (r: seq<Node>)
    requires d in {Rot90, Rot180, Rot270}
    ensures |r| == 2
    ensures forall i :: 0 <= i < 2 ==> Rank(r[i].def) < Rank(d) && r[i] == Plain(r[i].def)
    ensures d == Rot180 <==> Transpose !in [r[0].def, r[1].def]
  {
    match d
    case Rot90 => [Plain(Transpose), Plain(FlipV)]
    case Rot180 => [Plain(FlipV), Plain(FlipH)]
    case Rot270 => [Plain(FlipV), Plain(Transpose)]
  }

  /** The rewrite rule of an expandable composite. */
  function Expand(n: Node): (r: Result<seq<Node>>)
    requires IsExpandable(n.def)
    ensures r.Err? <==> n.def == ApplyOrientation && !n.params.ApplyOrientationParams?
    ensures r.Err? ==> r.error == NodeParamsMismatch
    ensures n.def == NoOp ==> r == Ok([])
    ensures r.Ok? ==> |r.value| <= 2 && forall i :: 0 <= i < |r.value| ==>
      Rank(r.value[i].def) < Rank(n.def) && r.value[i] == Plain(r.value[i].def) &&
      r.value[i].def != TransposeToCanvas
  {
    match n.def
    case ApplyOrientation => ApplyOrientationExpand(n.params)
    case NoOp => Ok([])
    case Rot90 => Ok(RotationExpand(Rot90))
    case Rot180 => Ok(RotationExpand(Rot180))
    case Rot270 => Ok(RotationExpand(Rot270))
  }

  function Pow3(k: nat): (r: nat)
    ensures r >= 1
  {
    if k == 0 then 1 else 3 * Pow3(k - 1)
  }

  /** Termination measure: a node of rank k weighs 3^k. */
  function Weight(p: seq<Node>): nat
    decreases |p|
  {
    if |p| == 0 then 0 else Pow3(Rank(p[0].def)) + Weight(p[1..])
  }

  lemma {:induction false} WeightConcat(a: seq<Node>, b: seq<Node>)
    ensures Weight(a + b) == Weight(a) + Weight(b)
    decreases |a|
  {
    if |a| == 0 {
      assert a + b == b;
    } else {
      assert (a + b)[0] == a[0];
      assert (a + b)[1..] == a[1..] + b;
      WeightConcat(a[1..], b);
    }
  }

  /** At most two nodes, each of strictly lower rank than n, weigh less
      than n alone. */
  lemma {:induction false} ExpandLowersWeight(n: Node, r: seq<Node>, rest: seq<Node>)
    requires |r| <= 2
    requires forall i :: 0 <= i < |r| ==> Rank(r[i].def) < Rank(n.def)
    ensures Weight(r + rest) < Weight([n] + rest)
  {
    WeightConcat(r, rest);
    WeightConcat([n], rest);
    var k := Rank(n.def);
    if |r| > 0 {
      assert k > 0;
      PowMonotone(Rank(r[0].def), k - 1);
      if |r| == 2 {
        PowMonotone(Rank(r[1].def), k - 1);
        assert r[1..][1..] == [];
      }
    }
  }

  lemma {:induction false} PowMonotone(i: nat, j: nat)
    requires i <= j
    ensures Pow3(i) <= Pow3(j)
    decreases j
  {
    if i < j {
      PowMonotone(i, j - 1);
    }
  }

  /** Expand every composite of a linear pipeline, splicing each
      replacement in the composite's place, until only basis descriptors
      remain. The first parameter mismatch aborts the whole pass. */
  function Unfold(p: seq<Node>): (r: Result<seq<Node>>)
    ensures r.Ok? ==> AllBasis(r.value)
    ensures r.Err? ==> r.error == NodeParamsMismatch
    decreases Weight(p)
  {
    if |p| == 0 then Ok([])
    else if IsExpandable(p[0].def) then
      var rep :- Expand(p[0]);
      assert p == [p[0]] + p[1..];
      ExpandLowersWeight(p[0], rep, p[1..]);
      Unfold(rep + p[1..])
    else
      assert Weight(p[1..]) < Weight(p);
      var q :- Unfold(p[1..]);
      Ok([p[0]] + q)
  }

  /** A pipeline with no expandable composite left is a fixed point. */
  lemma {:induction false} UnfoldBasisIsIdentity(p: seq<Node>)
    requires AllBasis(p)
    ensures Unfold(p) == Ok(p)
    decreases |p|
  {
    if |p| > 0 {
      UnfoldBasisIsIdentity(p[1..]);
      assert [p[0]] + p[1..] == p;
    }
  }

  /** Unfolding twice is unfolding once. */
  lemma {:induction false} UnfoldIdempotent(p: seq<Node>)
    requires Unfold(p).Ok?
    ensures Unfold(Unfold(p).value) == Unfold(p)
  {
    UnfoldBasisIsIdentity(Unfold(p).value);
  }

  /** Unfold succeeds on every pipeline whose apply_orientation nodes all
      carry an ApplyOrientation payload. */
  lemma {:induction false} UnfoldSucceeds(p: seq<Node>)
    requires forall i :: 0 <= i < |p| && p[i].def == ApplyOrientation ==> p[i].params.ApplyOrientationParams?
    ensures Unfold(p).Ok?
    decreases Weight(p)
  {
    if |p| > 0 {
      if IsExpandable(p[0].def) {
        var rep := Expand(p[0]).value;
        assert p == [p[0]] + p[1..];
        ExpandLowersWeight(p[0], rep, p[1..]);
        var q := rep + p[1..];
        forall i | 0 <= i < |q| && q[i].def == ApplyOrientation
          ensures q[i].params.ApplyOrientationParams?
        {
          assert i < |rep| ==> Rank(rep[i].def) < Rank(ApplyOrientation);
          assert q[i] == p[i - |rep| + 1];
        }
        UnfoldSucceeds(q);
      } else {
        assert Weight(p[1..]) < Weight(p);
        UnfoldSucceeds(p[1..]);
      }
    }
  }

  /** Conversely, one apply_orientation node with a payload of another kind
      makes the whole pass fail. */
  lemma {:induction false} UnfoldFailsOnMismatch(p: seq<Node>, k: nat)
    requires k < |p| && p[k].def == ApplyOrientation && !p[k].params.ApplyOrientationParams?
    ensures Unfold(p) == Err(NodeParamsMismatch)
    decreases Weight(p)
  {
    if IsExpandable(p[0].def) {
      if k > 0 && Expand(p[0]).Ok? {
        var rep := Expand(p[0]).value;
        assert p == [p[0]] + p[1..];
        ExpandLowersWeight(p[0], rep, p[1..]);
        var q := rep + p[1..];
        assert q[k - 1 + |rep|] == p[k];
        UnfoldFailsOnMismatch(q, k - 1 + |rep|);
      }
    } else {
      assert Weight(p[1..]) < Weight(p);
      UnfoldFailsOnMismatch(p[1..], k - 1);
    }
  }

  /** One splice keeps the pipeline well formed: the replacement nodes
      are plain and are neither canvas copies nor apply_orientation. */
  lemma {:induction false} SpliceKeepsWellFormed(p: seq<Node>)
    requires |p| > 0 && IsExpandable(p[0].def) && Expand(p[0]).Ok?
    requires AllWellFormed(p)
    ensures AllWellFormed(Expand(p[0]).value + p[1..])
  {
    var rep := Expand(p[0]).value;
    var q := rep + p[1..];
    forall i | 0 <= i < |q| ensures WellFormed(q[i]) {
      if i < |rep| {
        var d := rep[i].def;
        assert q[i] == Plain(d);
        assert Rank(d) < Rank(p[0].def) && d != TransposeToCanvas;
        assert InboundEdges(Plain(d)) == [Input];
      } else {
        assert q[i] == p[i - |rep| + 1];
      }
    }
  }

  /** Unfold keeps the pipeline well formed: it only ever inserts plain
      rotations, transposes and flips. */
  lemma {:induction false} UnfoldKeepsWellFormed(p: seq<Node>)
    requires AllWellFormed(p)
    requires Unfold(p).Ok?
    ensures AllWellFormed(Unfold(p).value)
    decreases Weight(p)
  {
    if |p| > 0 {
      if IsExpandable(p[0].def) {
        var rep := Expand(p[0]).value;
        assert p == [p[0]] + p[1..];
        ExpandLowersWeight(p[0], rep, p[1..]);
        SpliceKeepsWellFormed(p);
        UnfoldKeepsWellFormed(rep + p[1..]);
      } else {
        assert Weight(p[1..]) < Weight(p);
        UnfoldKeepsWellFormed(p[1..]);
        assert Unfold(p).value == [p[0]] + Unfold(p[1..]).value;
      }
    }
  }

  /** Composites are rewritten where they stand: a prefix with nothing left
      to expand is kept as it is in front of the unfolded rest. */
  lemma {:induction false} UnfoldKeepsBasisPrefix(a: seq<Node>, b: seq<Node>)
    requires AllBasis(a)
    ensures Unfold(a + b) ==
      match Unfold(b)
      case Err(e) => Err(e)
      case Ok(q) => Ok(a + q)
  {
    UnfoldConcat(a, b);
    UnfoldBasisIsIdentity(a);
  }

  /** A node is either taken from `p` or a plain transpose or flip. */
  predicate FromOrInserted(n: Node, p: seq<Node>) {
    n in p || (n == Plain(n.def) && n.def in {Transpose, FlipV, FlipH})
  }

  lemma {:induction false} SpliceOrigin(n: Node, p: seq<Node>)
    requires |p| > 0 && IsExpandable(p[0].def) && Expand(p[0]).Ok?
    requires IsBasis(n.def)
    requires FromOrInserted(n, Expand(p[0]).value + p[1..])
    ensures FromOrInserted(n, p)
  {
    var rep := Expand(p[0]).value;
    var q := rep + p[1..];
    if n in q {
      var k :| 0 <= k < |q| && q[k] == n;
      if k < |rep| {
        assert q[k] == rep[k];
        assert rep[k] == Plain(rep[k].def) && rep[k].def != TransposeToCanvas;
      } else {
        var j := k - |rep| + 1;
        assert q[k] == p[j] && 0 < j < |p|;
        assert p[j] in p;
      }
    }
  }

  /** Every node Unfold returns either came from the input pipeline or is a
      plain transpose or flip inserted by a rewrite rule. */
  lemma {:induction false} UnfoldOrigins(p: seq<Node>)
    requires Unfold(p).Ok?
    ensures forall j :: 0 <= j < |Unfold(p).value| ==> FromOrInserted(Unfold(p).value[j], p)
    decreases Weight(p)
  {
    if |p| > 0 {
      if IsExpandable(p[0].def) {
        var rep := Expand(p[0]).value;
        assert p == [p[0]] + p[1..];
        ExpandLowersWeight(p[0], rep, p[1..]);
        UnfoldOrigins(rep + p[1..]);
        forall j | 0 <= j < |Unfold(p).value|
          ensures FromOrInserted(Unfold(p).value[j], p)
        {
          SpliceOrigin(Unfold(p).value[j], p);
        }
      } else {
        assert Weight(p[1..]) < Weight(p);
        UnfoldOrigins(p[1..]);
        var q := Unfold(p[1..]).value;
        assert Unfold(p).value == [p[0]] + q;
        forall j | 0 <= j < |Unfold(p).value|
          ensures FromOrInserted(Unfold(p).value[j], p)
        {
          if j > 0 {
            assert Unfold(p).value[j] == q[j - 1];
            assert q[j - 1] in p[1..] ==> q[j - 1] in p;
          }
        }
      }
    }
  }

  /** Two unfolding outcomes one after the other; the first error wins. */
  function Join(x: Result<seq<Node>>, y: Result<seq<Node>>): Result<seq<Node>> {
    var a :- x;
    var b :- y;
    Ok(a + b)
  }

  /** Unfolding rewrites each node where it stands, so a pipeline can be
      unfolded piecewise: `x + y` unfolds to the unfolding of `x` followed
      by that of `y`, and fails exactly when one of them fails. */
  lemma {:induction false} UnfoldConcat(x: seq<Node>, y: seq<Node>)
    ensures Unfold(x + y) == Join(Unfold(x), Unfold(y))
    decreases Weight(x)
  {
    if |x| == 0 {
      ConcatEmptyCase(x, y);
    } else if IsExpandable(x[0].def) {
      if Expand(x[0]).Ok? {
        var rep := Expand(x[0]).value;
        assert x == [x[0]] + x[1..];
        ExpandLowersWeight(x[0], rep, x[1..]);
        UnfoldConcat(rep + x[1..], y);
      }
      ConcatExpandCase(x, y);
    } else {
      assert Weight(x[1..]) < Weight(x);
      UnfoldConcat(x[1..], y);
      ConcatKeepCase(x, y);
    }
  }

  lemma {:induction false} ConcatEmptyCase(x: seq<Node>, y: seq<Node>)
    requires |x| == 0
    ensures Unfold(x + y) == Join(Unfold(x), Unfold(y))
  {
    assert x + y == y;
    if Unfold(y).Ok? {
      assert [] + Unfold(y).value == Unfold(y).value;
    }
  }

  lemma {:induction false} ConcatExpandCase(x: seq<Node>, y: seq<Node>)
    requires |x| > 0 && IsExpandable(x[0].def)
    requires Expand(x[0]).Ok? ==>
      Unfold((Expand(x[0]).value + x[1..]) + y) == Join(Unfold(Expand(x[0]).value + x[1..]), Unfold(y))
    ensures Unfold(x + y) == Join(Unfold(x), Unfold(y))
  {
    UnfoldStepExpand(x, y);
  }

  lemma {:induction false} ConcatKeepCase(x: seq<Node>, y: seq<Node>)
    requires |x| > 0 && !IsExpandable(x[0].def)
    requires Unfold(x[1..] + y) == Join(Unfold(x[1..]), Unfold(y))
    ensures Unfold(x + y) == Join(Unfold(x), Unfold(y))
  {
    UnfoldStepKeep(x, y);
    JoinAfterHead([x[0]], Unfold(x[1..]), Unfold(y));
  }

  /** Prefixing a fixed head commutes with joining. */
  lemma {:induction false} JoinAfterHead(h: seq<Node>, u: Result<seq<Node>>, v: Result<seq<Node>>)
    ensures Join(Ok(h), Join(u, v)) == Join(Join(Ok(h), u), v)
  {
    if u.Ok? && v.Ok? {
      assert h + (u.value + v.value) == (h + u.value) + v.value;
    }
  }

  /** One unfolding step at the head of `x + y`, for a composite head. */
  lemma {:induction false} UnfoldStepExpand(x: seq<Node>, y: seq<Node>)
    requires |x| > 0 && IsExpandable(x[0].def)
    ensures Expand(x[0]).Err? ==> Unfold(x + y).Err? && Unfold(x).Err?
    ensures Expand(x[0]).Ok? ==>
      Unfold(x + y) == Unfold((Expand(x[0]).value + x[1..]) + y) &&
      Unfold(x) == Unfold(Expand(x[0]).value + x[1..])
  {
    assert (x + y)[0] == x[0];
    assert (x + y)[1..] == x[1..] + y;
    if Expand(x[0]).Ok? {
      var rep := Expand(x[0]).value;
      assert rep + (x[1..] + y) == (rep + x[1..]) + y;
    }
  }

  /** One unfolding step at the head of `x + y`, for a head that stays. */
  lemma {:induction false} UnfoldStepKeep(x: seq<Node>, y: seq<Node>)
    requires |x| > 0 && !IsExpandable(x[0].def)
    ensures Unfold(x + y) == Join(Ok([x[0]]), Unfold(x[1..] + y))
    ensures Unfold(x) == Join(Ok([x[0]]), Unfold(x[1..]))
  {
    assert (x + y)[0] == x[0];
    assert (x + y)[1..] == x[1..] + y;
  }

  /** A noop is deleted and its neighbours joined: `a -> noop -> b`
      unfolds exactly as `a -> b`, whatever surrounds it. */
  lemma {:induction false} UnfoldDeletesNoOp(a: seq<Node>, n: Node, b: seq<Node>)
    requires n.def == NoOp
    ensures Unfold(a + [n] + b) == Unfold(a + b)
  {
    var nb := [n] + b;
    assert a + [n] + b == a + nb;
    assert Unfold(nb) == Unfold(b) by {
      assert nb[0] == n && nb[1..] == b;
      assert Expand(n) == Ok([]);
      assert [] + b == b;
    }
    UnfoldConcat(a, nb);
    UnfoldConcat(a, b);
  }
}

/** What the rewrite rules mean for pixels. The native primitives are taken
    at their word: flip_vertical reverses the order of the rows,
    flip_horizontal reverses every row, and transpose exchanges rows and
    columns. Against that reading, the apply_orientation table undoes every
    EXIF orientation (tag 0x0112 of EXIF 2.3 and TIFF 6.0) and the three
    rotations turn the frame by quarter turns counter-clockwise. */
module Geometry {
  import opened Types
  import opened Nodes
  import opened Rewrite
  import opened Estimate

  datatype Size = Size(w: int, h: int)

  /** A pixel's column and row within a frame of the given size. */
  datatype Placed = Placed(size: Size, x: int, y: int)

  /** Where one basis operation moves a pixel. */
  function Move(d: Def, a: Placed): (b: Placed)
    requires IsBasis(d)
  {
    match d
    case FlipV => a.(y := a.size.h - 1 - a.y)
    case FlipH => a.(x := a.size.w - 1 - a.x)
    case Transpose => Placed(Size(a.size.h, a.size.w), a.y, a.x)
    case TransposeToCanvas => Placed(Size(a.size.h, a.size.w), a.y, a.x)
  }

  /** Where a pipeline of basis operations moves a pixel. */
  function Follow(p: seq<Node>, a: Placed): Placed
    requires AllBasis(p)
    decreases |p|
  {
    if |p| == 0 then a else Follow(p[1..], Move(p[0].def, a))
  }

  /** The sides of the displayed image named by an orientation code. */
  datatype Side = Top | Bottom | Left | Right

  /** The visual side on which the stored first row lies, per the EXIF
      definition of each orientation code. */
  function Row0Side(flag: int): Side
    requires 1 <= flag <= 8
  {
    if flag <= 2 then Top
    else if flag <= 4 then Bottom
    else if flag == 5 || flag == 8 then Left
    else Right
  }

  /** The visual side on which the stored first column lies. */
  function Col0Side(flag: int): Side
    requires 1 <= flag <= 8
  {
    match flag
    case 1 => Left
    case 2 => Right
    case 3 => Right
    case 4 => Left
    case 5 => Top
    case 6 => Top
    case 7 => Bottom
    case 8 => Bottom
  }

  /** Where a stored pixel must go for the image to display upright, given
      where the orientation code says its first row and column lie. */
  function Upright(flag: int, a: Placed): Placed
    requires 1 <= flag <= 8
  {
    var w, h := a.size.w, a.size.h;
    var row0, col0 := Row0Side(flag), Col0Side(flag);
    if row0 == Top || row0 == Bottom then
      Placed(a.size, if col0 == Left then a.x else w - 1 - a.x,
                     if row0 == Top then a.y else h - 1 - a.y)
    else
      Placed(Size(h, w), if row0 == Left then a.y else h - 1 - a.y,
                         if col0 == Top then a.x else w - 1 - a.x)
  }

  function Orient(flag: int): Node {
    Plain(ApplyOrientation).(params := ApplyOrientationParams(flag))
  }

  /** The complete unfolding of every orientation code, in order. */
  lemma {:induction false} OrientationUnfoldTable(flag: int)
    ensures Unfold([Orient(flag)]) == Ok(
      match flag
      case 2 => [Plain(FlipH)]
      case 3 => [Plain(FlipV), Plain(FlipH)]
      case 4 => [Plain(FlipV)]
      case 5 => [Plain(Transpose)]
      case 6 => [Plain(FlipV), Plain(Transpose)]
      case 7 => [Plain(FlipV), Plain(FlipH), Plain(Transpose)]
      case 8 => [Plain(Transpose), Plain(FlipV)]
      case _ => [])
  {
    var n := Orient(flag);
    UnfoldSingle(n);
    var rep := Expand(n).value;
    match flag
    case 2 =>
      assert rep == [Plain(FlipH)];
      UnfoldBasisIsIdentity(rep);
    case 3 =>
      assert rep == [Plain(Rot180)] + [];
      RotationUnfoldTable(Rot180, []);
      assert [Plain(FlipV), Plain(FlipH)] + [] == [Plain(FlipV), Plain(FlipH)];
    case 4 =>
      assert rep == [Plain(FlipV)];
      UnfoldBasisIsIdentity(rep);
    case 5 =>
      assert rep == [Plain(Transpose)];
      UnfoldBasisIsIdentity(rep);
    case 6 =>
      assert rep == [Plain(Rot270)] + [];
      RotationUnfoldTable(Rot270, []);
      assert [Plain(FlipV), Plain(Transpose)] + [] == [Plain(FlipV), Plain(Transpose)];
    case 7 =>
      assert rep == [Plain(Rot180)] + [Plain(Transpose)];
      RotationUnfoldTable(Rot180, [Plain(Transpose)]);
      assert [Plain(FlipV), Plain(FlipH)] + [Plain(Transpose)]
          == [Plain(FlipV), Plain(FlipH), Plain(Transpose)];
    case 8 =>
      assert rep == [Plain(Rot90)] + [];
      RotationUnfoldTable(Rot90, []);
      assert [Plain(Transpose), Plain(FlipV)] + [] == [Plain(Transpose), Plain(FlipV)];
    case _ =>
      assert rep == [];
  }

  /** A lone composite unfolds as its replacement does. */
  lemma {:induction false} UnfoldSingle(n: Node)
    requires IsExpandable(n.def) && Expand(n).Ok?
    ensures Unfold([n]) == Unfold(Expand(n).value)
  {
    assert [n][0] == n && [n][1..] == [];
    assert Expand(n).value + [] == Expand(n).value;
  }

  /** The complete unfolding of the three rotations, spliced in front of
      the unfolded rest of a pipeline. */
  lemma {:induction false} RotationUnfoldTable(d: Def, rest: seq<Node>)
    requires d in {Rot90, Rot180, Rot270}
    requires AllBasis(rest)
    ensures Unfold([Plain(d)] + rest) == Ok(
      match d
      case Rot90 => [Plain(Transpose), Plain(FlipV)] + rest
      case Rot180 => [Plain(FlipV), Plain(FlipH)] + rest
      case Rot270 => [Plain(FlipV), Plain(Transpose)] + rest)
  {
    var rep := RotationExpand(d);
    assert ([Plain(d)] + rest)[0] == Plain(d);
    assert ([Plain(d)] + rest)[1..] == rest;
    UnfoldBasisIsIdentity(rep + rest);
  }

  /** Every orientation code is undone: following the unfolded table moves
      each stored pixel to where the code says it belongs. */
  lemma {:induction false} OrientationIsUndone(flag: int, a: Placed)
    requires 1 <= flag <= 8
    ensures Unfold([Orient(flag)]).Ok?
    ensures Follow(Unfold([Orient(flag)]).value, a) == Upright(flag, a)
  {
    OrientationUnfoldTable(flag);
    match flag
    case 1 =>
    case 2 => FollowOne(FlipH, a);
    case 3 => FollowPair(FlipV, FlipH, a);
    case 4 => FollowOne(FlipV, a);
    case 5 => FollowOne(Transpose, a);
    case 6 => FollowPair(FlipV, Transpose, a);
    case 7 => FollowTriple(FlipV, FlipH, Transpose, a);
    case 8 => FollowPair(Transpose, FlipV, a);
  }

  lemma {:induction false} FollowOne(d: Def, a: Placed)
    requires IsBasis(d)
    ensures Follow([Plain(d)], a) == Move(d, a)
  {
    assert [Plain(d)][1..] == [];
  }

  lemma {:induction false} FollowPair(d1: Def, d2: Def, a: Placed)
    requires IsBasis(d1) && IsBasis(d2)
    ensures Follow([Plain(d1), Plain(d2)], a) == Move(d2, Move(d1, a))
  {
    assert [Plain(d1), Plain(d2)][1..] == [Plain(d2)];
    FollowOne(d2, Move(d1, a));
  }

  lemma {:induction false} FollowTriple(d1: Def, d2: Def, d3: Def, a: Placed)
    requires IsBasis(d1) && IsBasis(d2) && IsBasis(d3)
    ensures Follow([Plain(d1), Plain(d2), Plain(d3)], a) == Move(d3, Move(d2, Move(d1, a)))
  {
    assert [Plain(d1), Plain(d2), Plain(d3)][1..] == [Plain(d2), Plain(d3)];
    FollowPair(d2, d3, Move(d1, a));
  }

  /** rot90 turns a quarter counter-clockwise, rot270 a quarter clockwise,
      rot180 a half turn. */
  lemma {:induction false} RotationsTurn(a: Placed)
    ensures Unfold([Plain(Rot90)]).Ok? && Unfold([Plain(Rot180)]).Ok? && Unfold([Plain(Rot270)]).Ok?
    ensures Follow(Unfold([Plain(Rot90)]).value, a) == Placed(Size(a.size.h, a.size.w), a.y, a.size.w - 1 - a.x)
    ensures Follow(Unfold([Plain(Rot180)]).value, a) == Placed(a.size, a.size.w - 1 - a.x, a.size.h - 1 - a.y)
    ensures Follow(Unfold([Plain(Rot270)]).value, a) == Placed(Size(a.size.h, a.size.w), a.size.h - 1 - a.y, a.x)
  {
    RotationUnfoldTable(Rot90, []);
    RotationUnfoldTable(Rot180, []);
    RotationUnfoldTable(Rot270, []);
    assert [Plain(Rot90)] + [] == [Plain(Rot90)];
    assert [Plain(Rot180)] + [] == [Plain(Rot180)];
    assert [Plain(Rot270)] + [] == [Plain(Rot270)];
  }

  /** The rotating estimator reports the frame the pixels land in:
      transpose, rot90 and rot270 move every pixel of a frame inside the
      frame RotateFrameInfo predicts, which has exactly the moved size. */
  lemma {:induction false} RotateEstimateMatchesPixels(d: Def, fi: FrameInfo, a: Placed)
    requires d in {Transpose, Rot90, Rot270}
    requires a.size == Size(fi.w, fi.h) && 0 <= a.x < fi.w && 0 <= a.y < fi.h
    ensures Unfold([Plain(d)]).Ok?
    ensures var b := Follow(Unfold([Plain(d)]).value, a);
      var out := RotateFrameInfo(Known(fi)).info;
      b.size == Size(out.w, out.h) && 0 <= b.x < out.w && 0 <= b.y < out.h
  {
    RotationsTurn(a);
    if d == Transpose {
      UnfoldBasisIsIdentity([Plain(Transpose)]);
    }
  }

  /** The frame the pixels land in is the frame the estimator predicts:
      the upright size has width and height exchanged exactly when the
      estimate of apply_orientation exchanges them. */
  lemma {:induction false} UprightSizeMatchesEstimate(flag: int, fi: FrameInfo, x: int, y: int)
    requires 1 <= flag <= 8
    ensures var out := ApplyOrientationEstimate(ApplyOrientationParams(flag), Known(fi)).value.info;
      Upright(flag, Placed(Size(fi.w, fi.h), x, y)).size == Size(out.w, out.h)
  {
  }
}

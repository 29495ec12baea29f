/** The operation registry: every descriptor the orientation core defines,
    each under a fully qualified name, and lookup by that name. The two
    in-place flip primitives share one name in the source; `Naming`
    selects between the names as written and the corrected ones. */
module Registry {
  import opened Types
  import opened Nodes

  /** A registered descriptor: a pipeline node kind, or one of the two
      in-place flip primitives the protected flips FlipV and FlipH wrap. */
  datatype Descriptor =
    | NodeKind(def: Def)
    | FlipVerticalMutate
    | FlipHorizontalMutate

  datatype Naming = AsWritten | Corrected

  /** The fully qualified name of a descriptor: its local name in the
      `imazen.` namespace. */
  function Fqn(naming: Naming, d: Descriptor): string {
    "imazen." + LocalName(naming, d)
  }

  /** A descriptor's name within the namespace. As written, the horizontal
      flip primitive repeats the vertical one's name. */
  function LocalName(naming: Naming, d: Descriptor): string {
    match d
    case FlipVerticalMutate => "flip_vertical_mutate"
    case FlipHorizontalMutate =>
      if naming == AsWritten then "flip_vertical_mutate" else "flip_horizontal_mutate"
    case NodeKind(def) =>
      match def
      case FlipV => "flip_vertical"
      case FlipH => "flip_horizontal"
      case ApplyOrientation => "apply_orientation"
      case NoOp => "noop"
      case Rot90 => "rot90"
      case Rot180 => "rot180"
      case Rot270 => "rot270"
      case Transpose => "transpose"
      case TransposeToCanvas => "transpose_to_canvas"
  }

  /** Every name lies in the `imazen.` namespace, and exactly the names
      of the in-place primitives end in `_mutate`. */
  lemma {:induction false} FqnShape(naming: Naming, d: Descriptor)
    ensures |Fqn(naming, d)| > 7 && Fqn(naming, d)[..7] == "imazen."
    ensures d.FlipVerticalMutate? || d.FlipHorizontalMutate? <==>
      Fqn(naming, d)[|Fqn(naming, d)| - 7..] == "_mutate"
  {
    var s := Fqn(naming, d);
    var l := LocalName(naming, d);
    if d.FlipVerticalMutate? || d.FlipHorizontalMutate? {
      var stem := if naming == Corrected && d.FlipHorizontalMutate? then "flip_horizontal" else "flip_vertical";
      assert l == stem + "_mutate";
      assert s == ("imazen." + stem) + "_mutate";
    } else {
      NodeNameTail(d.def);
      assert s[|s| - 1] == l[|l| - 1];
    }
  }

  /** A node kind's name is the same under both namings, and it does not
      end in `te`, the last two letters of `_mutate`. */
  lemma {:induction false} NodeNameTail(def: Def)
    ensures |LocalName(Corrected, NodeKind(def))| >= 4
    ensures LocalName(Corrected, NodeKind(def)) == LocalName(AsWritten, NodeKind(def))
    ensures var l := LocalName(Corrected, NodeKind(def));
      l[|l| - 1] != 'e' || l[|l| - 2] != 't'
  {
  }

  /** The registry, in declaration order. */
  function Table(): seq<Descriptor> {
    [FlipVerticalMutate, FlipHorizontalMutate,
     NodeKind(FlipV), NodeKind(FlipH), NodeKind(ApplyOrientation), NodeKind(NoOp),
     NodeKind(Rot90), NodeKind(Rot180), NodeKind(Rot270),
     NodeKind(Transpose), NodeKind(TransposeToCanvas)]
  }

  /** The first descriptor of `table` whose name is `fqn`, if any. */
  function FindFirst(table: seq<Descriptor>, name: Descriptor -> string, fqn: string): (r: Option<Descriptor>)
    ensures r.None? <==> forall k :: 0 <= k < |table| ==> name(table[k]) != fqn
    ensures r.Some? ==> name(r.value) == fqn
    ensures r.Some? ==>
      (exists k :: 0 <= k < |table| && table[k] == r.value &&
         forall j :: 0 <= j < k ==> name(table[j]) != fqn)
    decreases |table|
  {
    if |table| == 0 then None
    else if name(table[0]) == fqn then Some(table[0])
    else
      var r := FindFirst(table[1..], name, fqn);
      if r.Some? then
        ghost var k :| 0 <= k < |table[1..]| && table[1..][k] == r.value &&
          forall j :: 0 <= j < k ==> name(table[1..][j]) != fqn;
        assert table[k + 1] == r.value;
        r
      else r
  }

  /** Registry lookup by fully qualified name. */
  function Lookup(naming: Naming, fqn: string): Option<Descriptor> {
    FindFirst(Table(), d => Fqn(naming, d), fqn)
  }

  /** Every descriptor is registered. */
  lemma {:induction false} TableComplete(d: Descriptor)
    ensures d in Table()
  {
    if d.NodeKind? {
      match d.def
      case FlipV => assert Table()[2] == d;
      case FlipH => assert Table()[3] == d;
      case ApplyOrientation => assert Table()[4] == d;
      case NoOp => assert Table()[5] == d;
      case Rot90 => assert Table()[6] == d;
      case Rot180 => assert Table()[7] == d;
      case Rot270 => assert Table()[8] == d;
      case Transpose => assert Table()[9] == d;
      case TransposeToCanvas => assert Table()[10] == d;
    } else if d == FlipVerticalMutate {
      assert Table()[0] == d;
    } else {
      assert Table()[1] == d;
    }
  }

  /** As written, the horizontal flip primitive cannot be found by its
      own name: the lookup returns the vertical flip primitive instead. */
  lemma {:induction false} AsWrittenFlipNamesCollide()
    ensures Fqn(AsWritten, FlipHorizontalMutate) == Fqn(AsWritten, FlipVerticalMutate)
    ensures Lookup(AsWritten, Fqn(AsWritten, FlipHorizontalMutate)) == Some(FlipVerticalMutate)
  {
    assert Table()[0] == FlipVerticalMutate;
  }

  /** With the corrected names every descriptor has a name of its own. */
  lemma {:induction false} CorrectedNamesInjective(a: Descriptor, b: Descriptor)
    requires Fqn(Corrected, a) == Fqn(Corrected, b)
    ensures a == b
  {
    assert LocalName(Corrected, a) == Fqn(Corrected, a)[7..];
    assert LocalName(Corrected, b) == Fqn(Corrected, b)[7..];
  }

  /** With the corrected names, looking a descriptor up by its name gives
      that descriptor back. */
  lemma {:induction false} CorrectedLookupRoundTrip(d: Descriptor)
    ensures Lookup(Corrected, Fqn(Corrected, d)) == Some(d)
  {
    TableComplete(d);
    var r := Lookup(Corrected, Fqn(Corrected, d));
    var k :| 0 <= k < |Table()| && Table()[k] == d;
    assert r.Some?;
    CorrectedNamesInjective(r.value, d);
  }
}

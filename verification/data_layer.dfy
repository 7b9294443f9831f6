/** One layer of a product: a "dataN" or "qualityN" group holding a
    quantity's array and, in its "what" group, the quantity name, the
    calibration and the two sentinel values "nodata" and "undetect". Values
    are read and written as integers or as reals; a calibrated layer converts
    them between stored and physical values on the way. */
module DataLayer {
  import opened Outcomes
  import opened Store
  import opened Numeric
  import opened Calibration
  import Codes
  import Attributes
  import Node

  /** The deflate level every layer array is created with. */
  const DefaultCompression: nat := 6

  datatype Layer = Layer(node: Node.Node, floating: bool, isQuality: bool, quantity: string,
                         gain: real, offset: real, size: nat)
  {
    function DataPath(): Path { node.path + [Codes.DatData] }
    function WhatPath(): Path { node.WhatPath() }
  }

  /** Values and sentinels as a read returns them; the values only when they
      were asked for. */
  datatype Readout<T> = Readout(values: Option<seq<T>>, noData: T, undetect: T)

  /** The family a layer belongs to. */
  function Prefix(isQuality: bool): string
  {
    if isQuality then Codes.QualityPrefix else Codes.DataPrefix
  }

  /** The number of elements, multiplied out one extent at a time. */
  method ComputeSize(dims: seq<nat>) returns (size: nat)
    ensures size == Extent(dims)
    ensures size == 0 <==> exists i :: 0 <= i < |dims| && dims[i] == 0
  {
    size := 1;
    var i := 0;
    while i < |dims|
      invariant 0 <= i <= |dims|
      invariant size == Extent(dims[..i])
      invariant size == 0 <==> exists j :: 0 <= j < i && dims[j] == 0
    {
      assert dims[..i + 1][..i] == dims[..i];
      size := size * dims[i];
      i := i + 1;
    }
    assert dims[..i] == dims;
  }

  function Reals(ns: seq<int>): (r: seq<real>)
    ensures |r| == |ns| && forall i :: 0 <= i < |ns| ==> r[i] == ns[i] as real
  {
    seq(|ns|, i requires 0 <= i < |ns| => ns[i] as real)
  }

  function Truncated(xs: seq<real>): (r: seq<int>)
    ensures |r| == |xs| && forall i :: 0 <= i < |xs| ==> r[i] == Truncate(xs[i])
  {
    seq(|xs|, i requires 0 <= i < |xs| => Truncate(xs[i]))
  }

  function Rounded(xs: seq<real>): (r: seq<int>)
    ensures |r| == |xs| && forall i :: 0 <= i < |xs| ==> r[i] == Round(xs[i])
  {
    seq(|xs|, i requires 0 <= i < |xs| => Round(xs[i]))
  }

  function Physical(xs: seq<real>, gain: real, offset: real): (r: seq<real>)
    ensures |r| == |xs| && forall i :: 0 <= i < |xs| ==> r[i] == ToPhysical(xs[i], gain, offset)
  {
    seq(|xs|, i requires 0 <= i < |xs| => ToPhysical(xs[i], gain, offset))
  }

  function Stored(xs: seq<real>, gain: real, offset: real): (r: seq<real>)
    requires gain != 0.0
    ensures |r| == |xs| && forall i :: 0 <= i < |xs| ==> r[i] == ToStored(xs[i], gain, offset)
  {
    seq(|xs|, i requires 0 <= i < |xs| => ToStored(xs[i], gain, offset))
  }

  /** Values as an array of element type `elem` holds them: an integer array
      truncates what it is given. */
  function StoreAs(elem: ElemType, xs: seq<real>): (r: seq<real>)
    ensures |r| == |xs|
    ensures elem != IntElem ==> r == xs
    ensures elem == IntElem ==> r == Reals(Truncated(xs))
  {
    if elem == IntElem then Reals(Truncated(xs)) else xs
  }

  /** The array a new layer starts with: zero-filled, chunked as one piece. */
  function NewArray(floating: bool, dims: seq<nat>): Array
  {
    Array(if floating then FloatElem else IntElem, dims, seq(Extent(dims), _ => 0.0), dims, DefaultCompression)
  }

  /** The image attributes a two-dimensional layer array carries. */
  function MarkImage(c: Container, p: Path, dims: seq<nat>): (r: Result<Container>)
    ensures |dims| != 2 ==> r == Success(c)
  {
    if |dims| != 2 then Success(c)
    else
      var c1 :- Attributes.NewString(c, p, Codes.AtnClass, Codes.ValClass);
      Attributes.NewString(c1, p, Codes.AtnImageVersion, Codes.ValImageVersion)
  }

  /** The attributes that mark a two-dimensional array as an image. */
  const ImageAttrs: map<string, AttrValue> :=
    map[Codes.AtnClass := Str(Codes.ValClass), Codes.AtnImageVersion := Str(Codes.ValImageVersion)]

  lemma MarkImageEmpty(c: Container, p: Path, dims: seq<nat>)
    requires p in c.objects && c.objects[p].attrs == map[]
    ensures MarkImage(c, p, dims)
            == Success(if |dims| == 2 then Container(c.objects[p := c.objects[p].(attrs := ImageAttrs)]) else c)
  {
    if |dims| == 2 {
      var o := c.objects[p];
      var c1 := PutAttr(c, p, Codes.AtnClass, Str(Codes.ValClass));
      assert c1.objects == c.objects[p := o.(attrs := map[Codes.AtnClass := Str(Codes.ValClass)])];
      var c2 := PutAttr(c1, p, Codes.AtnImageVersion, Str(Codes.ValImageVersion));
      assert c2.objects == c.objects[p := o.(attrs := ImageAttrs)];
    }
  }

  /** The attributes a new layer's "what" group starts with. */
  function Description(quantity: string): map<string, AttrValue>
  {
    map[Codes.AtnQuantity := Str(quantity), Codes.AtnGain := Double(1.0), Codes.AtnOffset := Double(0.0)]
  }

  /** Writes the quantity, a gain of one and an offset of zero into the
      "what" group at `w`; on an empty group the result is exactly the
      description. */
  function Describe(c: Container, w: Path, quantity: string): Result<Container>
  {
    var c1 :- Attributes.NewString(c, w, Codes.AtnQuantity, quantity);
    var c2 :- Attributes.NewDouble(c1, w, Codes.AtnGain, 1.0);
    Attributes.NewDouble(c2, w, Codes.AtnOffset, 0.0)
  }

  lemma DescribeEmpty(c: Container, w: Path, quantity: string)
    requires w in c.objects && c.objects[w].attrs == map[]
    ensures Describe(c, w, quantity) == Success(Container(c.objects[w := c.objects[w].(attrs := Description(quantity))]))
  {
    var o := c.objects[w];
    var c1 := PutAttr(c, w, Codes.AtnQuantity, Str(quantity));
    assert c1.objects == c.objects[w := o.(attrs := map[Codes.AtnQuantity := Str(quantity)])];
    var c2 := PutAttr(c1, w, Codes.AtnGain, Double(1.0));
    assert c2.objects == c.objects[w := o.(attrs := map[Codes.AtnQuantity := Str(quantity), Codes.AtnGain := Double(1.0)])];
    var c3 := PutAttr(c2, w, Codes.AtnOffset, Double(0.0));
    assert c3.objects == c.objects[w := o.(attrs := Description(quantity))];
  }

  /** Creates layer `index` of the data or quality family inside `parent`:
      its "what" group with the quantity, a gain of one and an offset of
      zero, and its array, integer or floating point as asked. */
  function Create(c: Container, parent: Path, floating: bool, isQuality: bool, index: nat,
                  quantity: string, dims: seq<nat>): (r: Result<(Container, Layer)>)
    ensures r.Success? ==> r.value.1 == Layer(Node.Fresh(parent + [Node.IndexedName(Prefix(isQuality), index)]).(what := true),
                                             floating, isQuality, quantity, 1.0, 0.0, Extent(dims))
    ensures r.Success? ==> IsGroup(c, parent) && parent + [Node.IndexedName(Prefix(isQuality), index)] !in c.objects
  {
    var created :- Node.CreateIndexed(c, parent, Prefix(isQuality), index);
    var ready :- Node.CheckCreateWhat(created.0, created.1);
    var n := ready.1;
    var c2 :- Describe(ready.0, n.WhatPath(), quantity);
    var c3 :- CreateDataset(c2, n.path, Codes.DatData, NewArray(floating, dims));
    var c4 :- MarkImage(c3, n.path + [Codes.DatData], dims);
    Success((c4, Layer(n, floating, isQuality, quantity, 1.0, 0.0, Extent(dims))))
  }

  /** The path of layer `index` of family `isQuality` inside `parent`. */
  function MemberPath(parent: Path, isQuality: bool, index: nat): Path
  {
    parent + [Node.IndexedName(Prefix(isQuality), index)]
  }

  /** A layer path whose group, metadata groups and array are all free. */
  predicate Vacant(c: Container, p: Path)
  {
    && p !in c.objects && p + [Codes.What] !in c.objects && p + [Codes.DatData] !in c.objects
    && p + [Codes.Where] !in c.objects && p + [Codes.How] !in c.objects
  }

  /** In a well-formed container a free path is vacant. */
  lemma VacantInWellFormed(c: Container, p: Path)
    requires WellFormed(c) && p !in c.objects
    ensures Vacant(c, p)
  {
    forall h | h in [Codes.What, Codes.DatData, Codes.Where, Codes.How]
      ensures p + [h] !in c.objects
    {
      assert (p + [h])[..|p|] == p;
      NoDescendants(c, p, p + [h]);
    }
  }

  /** The attributes a new layer's array carries. */
  function ArrayAttrs(dims: seq<nat>): map<string, AttrValue>
  {
    if |dims| == 2 then ImageAttrs else map[]
  }

  /** The container a successful create leaves: the layer's group, its
      described "what" group and its zero-filled array. */
  function Built(c: Container, p: Path, floating: bool, quantity: string, dims: seq<nat>): Container
  {
    Container(c.objects[p := Object(GroupKind, map[])]
                       [p + [Codes.What] := Object(GroupKind, Description(quantity))]
                       [p + [Codes.DatData] := Object(DatasetKind(NewArray(floating, dims)), ArrayAttrs(dims))])
  }

  /** The layer a successful create returns. */
  function NewLayer(p: Path, floating: bool, isQuality: bool, quantity: string, dims: seq<nat>): Layer
  {
    Layer(Node.Fresh(p).(what := true), floating, isQuality, quantity, 1.0, 0.0, Extent(dims))
  }

  /** The metadata and array names of a layer are distinct. */
  lemma NamesDistinct(p: Path)
    ensures p + [Codes.DatData] != p + [Codes.What]
    ensures p + [Codes.Where] != p + [Codes.What] && p + [Codes.Where] != p + [Codes.DatData]
    ensures p + [Codes.How] != p + [Codes.What] && p + [Codes.How] != p + [Codes.DatData]
  {
    assert (p + [Codes.DatData])[|p|] != (p + [Codes.What])[|p|];
    assert (p + [Codes.Where])[|p|] != (p + [Codes.What])[|p|] && (p + [Codes.Where])[|p|] != (p + [Codes.DatData])[|p|];
    assert (p + [Codes.How])[|p|] != (p + [Codes.What])[|p|] && (p + [Codes.How])[|p|] != (p + [Codes.DatData])[|p|];
  }

  /** The group of a new layer and its "what" group, where the name and the
      "what" group are free. */
  lemma CreateShell(c: Container, parent: Path, isQuality: bool, index: nat)
    requires IsGroup(c, parent)
    requires MemberPath(parent, isQuality, index) !in c.objects
    requires MemberPath(parent, isQuality, index) + [Codes.What] !in c.objects
    ensures var p := MemberPath(parent, isQuality, index);
            var g := Object(GroupKind, map[]);
            && Node.CreateIndexed(c, parent, Prefix(isQuality), index) == Success((Container(c.objects[p := g]), Node.Fresh(p)))
            && Node.CheckCreateWhat(Container(c.objects[p := g]), Node.Fresh(p))
               == Success((Container(c.objects[p := g][p + [Codes.What] := g]), Node.Fresh(p).(what := true)))
  {
    var p := MemberPath(parent, isQuality, index);
    assert |p + [Codes.What]| != |p|;
  }

  /** Describing the empty "what" group, adding the array and marking it
      yields the built container. */
  lemma CreateFill(c: Container, p: Path, floating: bool, quantity: string, dims: seq<nat>)
    requires p !in c.objects && p + [Codes.What] !in c.objects && p + [Codes.DatData] !in c.objects
    ensures var g := Object(GroupKind, map[]);
            var c2 := Container(c.objects[p := g][p + [Codes.What] := g]);
            var c3 := Container(c.objects[p := g][p + [Codes.What] := Object(GroupKind, Description(quantity))]);
            var c4 := Container(c3.objects[p + [Codes.DatData] := Object(DatasetKind(NewArray(floating, dims)), map[])]);
            && Describe(c2, p + [Codes.What], quantity) == Success(c3)
            && CreateDataset(c3, p, Codes.DatData, NewArray(floating, dims)) == Success(c4)
            && MarkImage(c4, p + [Codes.DatData], dims) == Success(Built(c, p, floating, quantity, dims))
  {
    var w, d := p + [Codes.What], p + [Codes.DatData];
    var g := Object(GroupKind, map[]);
    NamesDistinct(p);
    assert |d| != |p|;
    var c2 := Container(c.objects[p := g][w := g]);
    DescribeEmpty(c2, w, quantity);
    UpdateTwice(c.objects[p := g], w, g, Object(GroupKind, Description(quantity)));
    var c3 := Container(c.objects[p := g][w := Object(GroupKind, Description(quantity))]);
    var a := Object(DatasetKind(NewArray(floating, dims)), map[]);
    var c4 := Container(c3.objects[d := a]);
    MarkImageEmpty(c4, d, dims);
    UpdateTwice(c3.objects, d, a, a.(attrs := ImageAttrs));
  }

  /** What creating a layer under a vacant name inside a group yields. */
  lemma CreateResult(c: Container, parent: Path, floating: bool, isQuality: bool, index: nat,
                     quantity: string, dims: seq<nat>)
    requires IsGroup(c, parent) && Vacant(c, MemberPath(parent, isQuality, index))
    ensures Create(c, parent, floating, isQuality, index, quantity, dims)
            == Success((Built(c, MemberPath(parent, isQuality, index), floating, quantity, dims),
                        NewLayer(MemberPath(parent, isQuality, index), floating, isQuality, quantity, dims)))
  {
    var p := MemberPath(parent, isQuality, index);
    var g := Object(GroupKind, map[]);
    CreateShell(c, parent, isQuality, index);
    CreateFill(c, p, floating, quantity, dims);
    CreateFrom(c, parent, floating, isQuality, index, quantity, dims,
               Container(c.objects[p := g]), Container(c.objects[p := g][p + [Codes.What] := g]),
               Container(c.objects[p := g][p + [Codes.What] := Object(GroupKind, Description(quantity))]),
               Built(c, p, floating, quantity, dims));
  }

  /** Create yields what its steps produce. */
  lemma CreateFrom(c: Container, parent: Path, floating: bool, isQuality: bool, index: nat,
                   quantity: string, dims: seq<nat>, c1: Container, c2: Container, c3: Container, c5: Container)
    requires var p := MemberPath(parent, isQuality, index);
             && Node.CreateIndexed(c, parent, Prefix(isQuality), index) == Success((c1, Node.Fresh(p)))
             && Node.CheckCreateWhat(c1, Node.Fresh(p)) == Success((c2, Node.Fresh(p).(what := true)))
             && Describe(c2, p + [Codes.What], quantity) == Success(c3)
             && CreateDataset(c3, p, Codes.DatData, NewArray(floating, dims)).Success?
             && MarkImage(CreateDataset(c3, p, Codes.DatData, NewArray(floating, dims)).value, p + [Codes.DatData], dims) == Success(c5)
    ensures Create(c, parent, floating, isQuality, index, quantity, dims)
            == Success((c5, NewLayer(MemberPath(parent, isQuality, index), floating, isQuality, quantity, dims)))
  {
  }

  /** In a well-formed container, creating a layer fails only when the
      parent is not a group or the layer's name is taken; the new layer
      then holds its quantity, identity calibration and zero-filled array. */
  lemma CreateContents(c: Container, parent: Path, floating: bool, isQuality: bool, index: nat,
                       quantity: string, dims: seq<nat>)
    requires WellFormed(c) && IsGroup(c, parent)
    requires parent + [Node.IndexedName(Prefix(isQuality), index)] !in c.objects
    ensures Create(c, parent, floating, isQuality, index, quantity, dims).Success?
    ensures var (c2, l) := Create(c, parent, floating, isQuality, index, quantity, dims).value;
            && l.WhatPath() in c2.objects && c2.objects[l.WhatPath()] == Object(GroupKind, Description(quantity))
            && IsDataset(c2, l.DataPath())
            && c2.objects[l.DataPath()].kind.data == NewArray(floating, dims)
            && c2.objects[l.DataPath()].attrs == if |dims| == 2 then ImageAttrs else map[]
  {
    var p := MemberPath(parent, isQuality, index);
    VacantInWellFormed(c, p);
    CreateResult(c, parent, floating, isQuality, index, quantity, dims);
    BuiltContents(c, p, floating, quantity, dims);
  }

  /** The built container holds the described "what" group and the new
      array. */
  lemma BuiltContents(c: Container, p: Path, floating: bool, quantity: string, dims: seq<nat>)
    ensures var b := Built(c, p, floating, quantity, dims);
            && p + [Codes.What] in b.objects && b.objects[p + [Codes.What]] == Object(GroupKind, Description(quantity))
            && IsDataset(b, p + [Codes.DatData])
            && b.objects[p + [Codes.DatData]].kind.data == NewArray(floating, dims)
            && b.objects[p + [Codes.DatData]].attrs == ArrayAttrs(dims)
  {
    NamesDistinct(p);
  }

  // ---------------------------------------------------------------- opening

  /** Whether an array holds integers. */
  function IsIntegral(c: Container, p: Path): bool
    requires IsDataset(c, p)
  {
    c.objects[p].kind.data.elem == IntElem
  }

  /** Opens layer `index` of the data or quality family inside `parent`,
      whose array the caller says has extents `dims`. The layer counts as
      floating point when it is calibrated or its array does not hold
      integers. */
  function Open(c: Container, parent: Path, isQuality: bool, index: nat, quantity: string,
                dims: seq<nat>): (r: Result<Layer>)
    ensures r.Success? ==> Node.OpenIndexed(c, parent, Prefix(isQuality), index) == Success(r.value.node)
    ensures r.Success? ==> IsDataset(c, r.value.DataPath())
    ensures r.Success? ==> Attributes.GetDouble(c, r.value.WhatPath(), Codes.AtnGain) == Success(r.value.gain)
                           && Attributes.GetDouble(c, r.value.WhatPath(), Codes.AtnOffset) == Success(r.value.offset)
    ensures r.Success? ==> (r.value.floating <==> Calibrated(r.value.gain, r.value.offset) || !IsIntegral(c, r.value.DataPath()))
    ensures r.Success? ==> r.value.isQuality == isQuality && r.value.quantity == quantity && r.value.size == Extent(dims)
  {
    var n :- Node.OpenIndexed(c, parent, Prefix(isQuality), index);
    var gain :- Attributes.GetDouble(c, n.WhatPath(), Codes.AtnGain);
    var offset :- Attributes.GetDouble(c, n.WhatPath(), Codes.AtnOffset);
    var d := n.path + [Codes.DatData];
    if !IsDataset(c, d) then Failure(OpenFailure)
    else
      var floating := Calibrated(gain, offset) || c.objects[d].kind.data.elem != IntElem;
      Success(Layer(n, floating, isQuality, quantity, gain, offset, Extent(dims)))
  }

  /** A layer just created opens as the layer its creation returned. */
  lemma OpenCreated(c: Container, parent: Path, floating: bool, isQuality: bool, index: nat,
                    quantity: string, dims: seq<nat>)
    requires WellFormed(c) && IsGroup(c, parent)
    requires parent + [Node.IndexedName(Prefix(isQuality), index)] !in c.objects
    ensures Create(c, parent, floating, isQuality, index, quantity, dims).Success?
    ensures var (c2, l) := Create(c, parent, floating, isQuality, index, quantity, dims).value;
            Open(c2, parent, isQuality, index, quantity, dims) == Success(l)
  {
    var p := MemberPath(parent, isQuality, index);
    VacantInWellFormed(c, p);
    CreateResult(c, parent, floating, isQuality, index, quantity, dims);
    BuiltOpens(c, parent, floating, isQuality, index, quantity, dims);
  }

  /** The built container of a vacant layer path opens as the new layer. */
  lemma BuiltOpens(c: Container, parent: Path, floating: bool, isQuality: bool, index: nat,
                   quantity: string, dims: seq<nat>)
    requires Vacant(c, MemberPath(parent, isQuality, index))
    ensures var p := MemberPath(parent, isQuality, index);
            Open(Built(c, p, floating, quantity, dims), parent, isQuality, index, quantity, dims)
            == Success(NewLayer(p, floating, isQuality, quantity, dims))
  {
    var p := MemberPath(parent, isQuality, index);
    var b := Built(c, p, floating, quantity, dims);
    NamesDistinct(p);
    assert |p + [Codes.What]| != |p|;
    assert IsGroup(b, p) && p + [Codes.Where] !in b.objects && p + [Codes.How] !in b.objects;
    assert Node.OpenIndexed(b, parent, Prefix(isQuality), index) == Success(Node.Fresh(p).(what := true));
    IdentityUncalibrated();
  }

  /** Creating a layer adds its group, its "what" group and its array and
      touches nothing else. */
  lemma CreateLeavesOthers(c: Container, parent: Path, floating: bool, isQuality: bool, index: nat,
                           quantity: string, dims: seq<nat>, q: Path)
    requires WellFormed(c) && IsGroup(c, parent)
    requires parent + [Node.IndexedName(Prefix(isQuality), index)] !in c.objects
    ensures Create(c, parent, floating, isQuality, index, quantity, dims).Success?
    ensures var (c2, l) := Create(c, parent, floating, isQuality, index, quantity, dims).value;
            q !in {l.node.path, l.WhatPath(), l.DataPath()} ==> (q in c2.objects <==> q in c.objects)
    ensures var (c2, l) := Create(c, parent, floating, isQuality, index, quantity, dims).value;
            q !in {l.node.path, l.WhatPath(), l.DataPath()} && q in c.objects ==> c2.objects[q] == c.objects[q]
    ensures var (c2, l) := Create(c, parent, floating, isQuality, index, quantity, dims).value;
            l.node.path in c2.objects && c2.objects[l.node.path] == Object(GroupKind, map[])
  {
    var p := MemberPath(parent, isQuality, index);
    VacantInWellFormed(c, p);
    CreateResult(c, parent, floating, isQuality, index, quantity, dims);
    BuiltLeavesOthers(c, p, floating, quantity, dims, q);
  }

  /** The built container differs from the original only at the layer's
      group, its "what" group and its array. */
  lemma BuiltLeavesOthers(c: Container, p: Path, floating: bool, quantity: string, dims: seq<nat>, q: Path)
    ensures var b := Built(c, p, floating, quantity, dims);
            && (q !in {p, p + [Codes.What], p + [Codes.DatData]} ==> (q in b.objects <==> q in c.objects))
            && (q !in {p, p + [Codes.What], p + [Codes.DatData]} && q in c.objects ==> b.objects[q] == c.objects[q])
            && p in b.objects && b.objects[p] == Object(GroupKind, map[])
  {
    assert |p + [Codes.What]| != |p| && |p + [Codes.DatData]| != |p|;
  }

  /** Every object after creating a layer sits inside a group. */
  lemma CreateKeepsParent(c: Container, parent: Path, floating: bool, isQuality: bool, index: nat,
                          quantity: string, dims: seq<nat>, q: Path)
    requires WellFormed(c) && IsGroup(c, parent)
    requires parent + [Node.IndexedName(Prefix(isQuality), index)] !in c.objects
    requires Create(c, parent, floating, isQuality, index, quantity, dims).Success?
    requires q in Create(c, parent, floating, isQuality, index, quantity, dims).value.0.objects && q != []
    ensures IsGroup(Create(c, parent, floating, isQuality, index, quantity, dims).value.0, q[..|q| - 1])
  {
    var (c2, l) := Create(c, parent, floating, isQuality, index, quantity, dims).value;
    var p := l.node.path;
    var up := q[..|q| - 1];
    CreateLeavesOthers(c, parent, floating, isQuality, index, quantity, dims, q);
    CreateLeavesOthers(c, parent, floating, isQuality, index, quantity, dims, up);
    if q == p {
      assert up == parent;
      assert |parent| < |p| && |p| < |l.WhatPath()| && |l.WhatPath()| == |l.DataPath()|;
    } else if q == l.WhatPath() || q == l.DataPath() {
      assert up == p;
    } else {
      assert q in c.objects;
      if up == p {
        NoDescendants(c, p, q);
      } else if up == l.WhatPath() || up == l.DataPath() {
        assert up[..|p|] == p;
        NoDescendants(c, p, up);
      }
    }
  }

  /** Creating a layer keeps every object inside a group. */
  lemma CreateKeepsWellFormed(c: Container, parent: Path, floating: bool, isQuality: bool, index: nat,
                              quantity: string, dims: seq<nat>)
    requires WellFormed(c) && IsGroup(c, parent)
    requires parent + [Node.IndexedName(Prefix(isQuality), index)] !in c.objects
    ensures Create(c, parent, floating, isQuality, index, quantity, dims).Success?
    ensures WellFormed(Create(c, parent, floating, isQuality, index, quantity, dims).value.0)
  {
    CreateContents(c, parent, floating, isQuality, index, quantity, dims);
    var c2 := Create(c, parent, floating, isQuality, index, quantity, dims).value.0;
    forall q | q in c2.objects && q != []
      ensures IsGroup(c2, q[..|q| - 1])
    {
      CreateKeepsParent(c, parent, floating, isQuality, index, quantity, dims, q);
    }
    CreateLeavesOthers(c, parent, floating, isQuality, index, quantity, dims, []);
  }

  // ---------------------------------------------------------------- reading

  /** The array of a layer, after the check that it has as many elements as
      the layer was opened with. */
  function CheckedArray(c: Container, l: Layer): (r: Result<Array>)
    ensures r.Success? <==> IsDataset(c, l.DataPath()) && Extent(c.objects[l.DataPath()].kind.data.dims) == l.size
    ensures r.Success? ==> r.value == c.objects[l.DataPath()].kind.data
    ensures IsDataset(c, l.DataPath()) && r.Failure? ==> r.error == SizeMismatch
  {
    if !IsDataset(c, l.DataPath()) then Failure(OpenFailure)
    else
      var a := c.objects[l.DataPath()].kind.data;
      if Extent(a.dims) != l.size then Failure(SizeMismatch) else Success(a)
  }

  /** The two sentinels as stored. */
  function StoredSentinels(c: Container, l: Layer): (r: Result<(real, real)>)
    ensures r.Success? <==> Attributes.GetDouble(c, l.WhatPath(), Codes.AtnNoData).Success?
                            && Attributes.GetDouble(c, l.WhatPath(), Codes.AtnUndetect).Success?
    ensures r.Success? ==> r.value == (Attributes.GetDouble(c, l.WhatPath(), Codes.AtnNoData).value,
                                       Attributes.GetDouble(c, l.WhatPath(), Codes.AtnUndetect).value)
  {
    var nd :- Attributes.GetDouble(c, l.WhatPath(), Codes.AtnNoData);
    var ud :- Attributes.GetDouble(c, l.WhatPath(), Codes.AtnUndetect);
    Success((nd, ud))
  }

  /** Reads the layer as integers: the sentinels are rounded to the nearest
      integer, the values are converted to integers by truncation, and a
      calibrated layer rounds the physical value of each. */
  function ReadInt(c: Container, l: Layer, wantValues: bool): (r: Result<Readout<int>>)
    ensures r.Success? <==> CheckedArray(c, l).Success? && StoredSentinels(c, l).Success?
    ensures r.Success? ==> (r.value.values.Some? <==> wantValues)
    ensures r.Success? && r.value.values.Some? ==> |r.value.values.value| == |CheckedArray(c, l).value.values|
    ensures r.Success? && !Calibrated(l.gain, l.offset) ==>
              var (nd, ud) := StoredSentinels(c, l).value;
              && r.value.noData == Round(nd) && r.value.undetect == Round(ud)
              && (wantValues ==> r.value.values == Some(Truncated(CheckedArray(c, l).value.values)))
    ensures r.Success? && Calibrated(l.gain, l.offset) ==>
              var (nd, ud) := StoredSentinels(c, l).value;
              var vs := CheckedArray(c, l).value.values;
              && r.value.noData == Round(ToPhysical(Round(nd) as real, l.gain, l.offset))
              && r.value.undetect == Round(ToPhysical(Round(ud) as real, l.gain, l.offset))
              && (wantValues ==> forall i :: 0 <= i < |vs| ==>
                    r.value.values.value[i] == Round(ToPhysical(Truncate(vs[i]) as real, l.gain, l.offset)))
  {
    var a :- CheckedArray(c, l);
    var sentinels :- StoredSentinels(c, l);
    var nd, ud := Round(sentinels.0), Round(sentinels.1);
    var raw := Truncated(a.values);
    if Calibrated(l.gain, l.offset) then
      Success(Readout(if wantValues then Some(Rounded(Physical(Reals(raw), l.gain, l.offset))) else None,
                      Round(ToPhysical(nd as real, l.gain, l.offset)),
                      Round(ToPhysical(ud as real, l.gain, l.offset))))
    else
      Success(Readout(if wantValues then Some(raw) else None, nd, ud))
  }

  /** Reads the layer as reals (the `float` and `double` readers alike): a
      calibrated layer returns the physical value of each stored value. */
  function ReadReal(c: Container, l: Layer, wantValues: bool): (r: Result<Readout<real>>)
    ensures r.Success? <==> CheckedArray(c, l).Success? && StoredSentinels(c, l).Success?
    ensures r.Success? ==> (r.value.values.Some? <==> wantValues)
    ensures r.Success? && !Calibrated(l.gain, l.offset) ==>
              r.value == Readout(if wantValues then Some(CheckedArray(c, l).value.values) else None,
                                 StoredSentinels(c, l).value.0, StoredSentinels(c, l).value.1)
    ensures r.Success? && Calibrated(l.gain, l.offset) ==>
              var (nd, ud) := StoredSentinels(c, l).value;
              r.value == Readout(if wantValues then Some(Physical(CheckedArray(c, l).value.values, l.gain, l.offset)) else None,
                                 ToPhysical(nd, l.gain, l.offset), ToPhysical(ud, l.gain, l.offset))
  {
    var a :- CheckedArray(c, l);
    var sentinels :- StoredSentinels(c, l);
    if Calibrated(l.gain, l.offset) then
      Success(Readout(if wantValues then Some(Physical(a.values, l.gain, l.offset)) else None,
                      ToPhysical(sentinels.0, l.gain, l.offset), ToPhysical(sentinels.1, l.gain, l.offset)))
    else
      Success(Readout(if wantValues then Some(a.values) else None, sentinels.0, sentinels.1))
  }

  // ---------------------------------------------------------------- writing

  /** Whether both sentinels can be set in the "what" group at `w`: the
      group exists, and each sentinel it already holds is a single number
      that can be written in place. */
  predicate SentinelsWritable(c: Container, w: Path)
  {
    && w in c.objects
    && (Codes.AtnNoData in c.objects[w].attrs ==> Attributes.OneNumber(c.objects[w].attrs[Codes.AtnNoData]).Success?)
    && (Codes.AtnUndetect in c.objects[w].attrs ==> Attributes.OneNumber(c.objects[w].attrs[Codes.AtnUndetect]).Success?)
  }

  /** What a write to the layer whose array is at `d` and whose "what" group
      is at `w` leaves alone: every other object, everything about the array
      but its values, and every attribute of "what" but the two sentinels. */
  predicate WriteFrame(c: Container, c2: Container, d: Path, w: Path)
  {
    && c2.objects.Keys == c.objects.Keys
    && (forall q :: q in c.objects && q != d && q != w ==> c2.objects[q] == c.objects[q])
    && IsDataset(c, d) && IsDataset(c2, d)
    && c2.objects[d].attrs == c.objects[d].attrs
    && c2.objects[d].kind.data == c.objects[d].kind.data.(values := c2.objects[d].kind.data.values)
    && w in c.objects && c2.objects[w].kind == c.objects[w].kind
    && c2.objects[w].attrs.Keys - {Codes.AtnNoData, Codes.AtnUndetect}
       == c.objects[w].attrs.Keys - {Codes.AtnNoData, Codes.AtnUndetect}
    && (forall a :: a in c.objects[w].attrs && a != Codes.AtnNoData && a != Codes.AtnUndetect ==>
          a in c2.objects[w].attrs && c2.objects[w].attrs[a] == c.objects[w].attrs[a])
  }

  /** Stores the two sentinels, each written in place or created. */
  function PutSentinels(c: Container, w: Path, nd: real, ud: real): (r: Result<Container>)
    ensures r.Success? <==> SentinelsWritable(c, w)
    ensures r.Success? ==> Attributes.OthersUnchanged(c, r.value, w, {Codes.AtnNoData, Codes.AtnUndetect})
  {
    var c1 :- Attributes.SetDouble(c, w, Codes.AtnNoData, nd);
    var r := Attributes.SetDouble(c1, w, Codes.AtnUndetect, ud);
    if r.Success? then
      Attributes.FrameCompose(c, c1, r.value, w, Codes.AtnNoData, Codes.AtnUndetect); r
    else r
  }

  /** Replaces the values of the layer's array, converted to its element type. */
  function PutLayerValues(c: Container, l: Layer, xs: seq<real>): (r: Container)
    requires IsDataset(c, l.DataPath())
    ensures IsDataset(r, l.DataPath())
    ensures r.objects[l.DataPath()].kind.data.values == StoreAs(c.objects[l.DataPath()].kind.data.elem, xs)
  {
    PutValues(c, l.DataPath(), StoreAs(c.objects[l.DataPath()].kind.data.elem, xs))
  }

  /** The sentinels and values a write stores, before conversion to the
      array's element type: a calibrated layer stores each physical value
      mapped back through the calibration, rounded when it writes integers.
      A gain of zero has no inverse. */
  function Encode(l: Layer, xs: seq<real>, nd: real, ud: real, integral: bool): (r: Result<(seq<real>, real, real)>)
    ensures r.Success? <==> !Calibrated(l.gain, l.offset) || l.gain != 0.0
    ensures r.Success? ==> |r.value.0| == |xs|
    ensures r.Success? && !Calibrated(l.gain, l.offset) ==> r.value == (xs, nd, ud)
    ensures r.Success? && Calibrated(l.gain, l.offset) && !integral ==>
              && (forall i :: 0 <= i < |xs| ==> ToPhysical(r.value.0[i], l.gain, l.offset) == xs[i])
              && ToPhysical(r.value.1, l.gain, l.offset) == nd && ToPhysical(r.value.2, l.gain, l.offset) == ud
    ensures r.Success? && Calibrated(l.gain, l.offset) && integral ==>
              && (forall i :: 0 <= i < |xs| ==> r.value.0[i] == Round(ToStored(xs[i], l.gain, l.offset)) as real)
              && r.value.1 == Round(ToStored(nd, l.gain, l.offset)) as real
              && r.value.2 == Round(ToStored(ud, l.gain, l.offset)) as real
  {
    if !Calibrated(l.gain, l.offset) then Success((xs, nd, ud))
    else if l.gain == 0.0 then Failure(NonFinite)
    else
      var vs := Stored(xs, l.gain, l.offset);
      if integral then
        Success((Reals(Rounded(vs)), Round(ToStored(nd, l.gain, l.offset)) as real,
                 Round(ToStored(ud, l.gain, l.offset)) as real))
      else Success((vs, ToStored(nd, l.gain, l.offset), ToStored(ud, l.gain, l.offset)))
  }

  /** A write of values and sentinels, by the `int` writer when `integral`
      holds (which rounds calibrated values) and by the `float` and `double`
      writers otherwise: size check, conversion, sentinels, then values. */
  function Write(c: Container, l: Layer, xs: seq<real>, nd: real, ud: real, integral: bool): (r: Result<Container>)
    requires |xs| == l.size
    ensures r.Success? <==> && CheckedArray(c, l).Success? && Encode(l, xs, nd, ud, integral).Success?
                            && SentinelsWritable(c, l.WhatPath())
    ensures r.Success? ==> WriteFrame(c, r.value, l.DataPath(), l.WhatPath())
    ensures r.Success? ==> IsDataset(r.value, l.DataPath())
    ensures r.Success? ==> var (vs, _, _) := Encode(l, xs, nd, ud, integral).value;
              r.value.objects[l.DataPath()].kind.data == CheckedArray(c, l).value.(values := StoreAs(CheckedArray(c, l).value.elem, vs))
  {
    var a :- CheckedArray(c, l);
    var encoded :- Encode(l, xs, nd, ud, integral);
    var c1 :- PutSentinels(c, l.WhatPath(), encoded.1, encoded.2);
    assert l.DataPath() != l.WhatPath() by { assert l.DataPath()[|l.node.path|] != l.WhatPath()[|l.node.path|]; }
    Success(PutLayerValues(c1, l, encoded.0))
  }

  // ------------------------------------------------------------ round trips

  /** The value a real written into attribute `name` of `w` keeps: an
      existing integer attribute truncates it. */
  function Kept(c: Container, w: Path, name: string, x: real): real
    requires w in c.objects
  {
    if name in c.objects[w].attrs && c.objects[w].attrs[name].Class() == IntegerClass then Truncate(x) as real else x
  }

  /** What the sentinels read as after they were put. */
  lemma SentinelsPut(c: Container, w: Path, nd: real, ud: real)
    requires PutSentinels(c, w, nd, ud).Success?
    ensures w in c.objects
    ensures Attributes.GetDouble(PutSentinels(c, w, nd, ud).value, w, Codes.AtnNoData) == Success(Kept(c, w, Codes.AtnNoData, nd))
    ensures Attributes.GetDouble(PutSentinels(c, w, nd, ud).value, w, Codes.AtnUndetect) == Success(Kept(c, w, Codes.AtnUndetect, ud))
  {
    var c1 := Attributes.SetDouble(c, w, Codes.AtnNoData, nd).value;
    Attributes.DoubleRoundTrip(c, w, Codes.AtnNoData, nd);
    Attributes.DoubleRoundTrip(c1, w, Codes.AtnUndetect, ud);
    var c2 := Attributes.SetDouble(c1, w, Codes.AtnUndetect, ud).value;
    Attributes.ReadOther(c1, c2, w, {Codes.AtnUndetect}, Codes.AtnNoData);
    Attributes.ReadOther(c, c1, w, {Codes.AtnNoData}, Codes.AtnUndetect);
  }

  /** After a write, the array holds the encoded values converted to its
      element type and the sentinels hold the encoded sentinels. */
  lemma WriteEffect(c: Container, l: Layer, xs: seq<real>, nd: real, ud: real, integral: bool)
    requires |xs| == l.size && Write(c, l, xs, nd, ud, integral).Success?
    ensures Encode(l, xs, nd, ud, integral).Success? && l.WhatPath() in c.objects
    ensures var (vs, end, eud) := Encode(l, xs, nd, ud, integral).value;
            var a := CheckedArray(c, l).value;
            var c2 := Write(c, l, xs, nd, ud, integral).value;
            && CheckedArray(c2, l) == Success(a.(values := StoreAs(a.elem, vs)))
            && StoredSentinels(c2, l) == Success((Kept(c, l.WhatPath(), Codes.AtnNoData, end),
                                                  Kept(c, l.WhatPath(), Codes.AtnUndetect, eud)))
  {
    var (vs, end, eud) := Encode(l, xs, nd, ud, integral).value;
    var w := l.WhatPath();
    var c1 := PutSentinels(c, w, end, eud).value;
    SentinelsPut(c, w, end, eud);
    assert l.DataPath() != w by { assert l.DataPath()[|l.node.path|] != w[|l.node.path|]; }
    var c2 := PutLayerValues(c1, l, vs);
    assert c2.objects[w] == c1.objects[w];
  }

  /** Reals written to a layer whose array holds reals are read back
      exactly, values and sentinels, whether or not it is calibrated, when
      the sentinels are not stored as integers. */
  lemma RealRoundTrip(c: Container, l: Layer, raw: seq<real>, noData: real, undetect: real)
    requires |raw| == l.size && Write(c, l, raw, noData, undetect, false).Success?
    requires !IsIntegral(c, l.DataPath())
    requires forall name :: name in {Codes.AtnNoData, Codes.AtnUndetect} && name in c.objects[l.WhatPath()].attrs
               ==> c.objects[l.WhatPath()].attrs[name].Class() != IntegerClass
    ensures ReadReal(Write(c, l, raw, noData, undetect, false).value, l, true) == Success(Readout(Some(raw), noData, undetect))
  {
    WriteEffect(c, l, raw, noData, undetect, false);
    if Calibrated(l.gain, l.offset) {
      var vs := Stored(raw, l.gain, l.offset);
      assert Physical(vs, l.gain, l.offset) == raw;
    }
  }

  /** A layer just created takes any write of its size, and the reals
      written to a floating-point one read back exactly. */
  lemma WriteAfterCreate(c: Container, parent: Path, floating: bool, isQuality: bool, index: nat,
                         quantity: string, dims: seq<nat>, xs: seq<real>, nd: real, ud: real, integral: bool)
    requires WellFormed(c) && IsGroup(c, parent)
    requires parent + [Node.IndexedName(Prefix(isQuality), index)] !in c.objects
    requires |xs| == Extent(dims)
    ensures Create(c, parent, floating, isQuality, index, quantity, dims).Success?
    ensures var (c2, l) := Create(c, parent, floating, isQuality, index, quantity, dims).value;
            Write(c2, l, xs, nd, ud, integral).Success?
    ensures var (c2, l) := Create(c, parent, floating, isQuality, index, quantity, dims).value;
            floating ==> ReadReal(Write(c2, l, xs, nd, ud, false).value, l, true) == Success(Readout(Some(xs), nd, ud))
  {
    CreateContents(c, parent, floating, isQuality, index, quantity, dims);
    var (c2, l) := Create(c, parent, floating, isQuality, index, quantity, dims).value;
    IdentityUncalibrated();
    assert Codes.AtnNoData !in Description(quantity) && Codes.AtnUndetect !in Description(quantity);
    if floating {
      RealRoundTrip(c2, l, xs, nd, ud);
    }
  }

  /** Integers written to an uncalibrated layer are read back exactly. */
  lemma IntRoundTrip(c: Container, l: Layer, raw: seq<int>, noData: int, undetect: int)
    requires |raw| == l.size && Write(c, l, Reals(raw), noData as real, undetect as real, true).Success?
    requires !Calibrated(l.gain, l.offset)
    ensures ReadInt(Write(c, l, Reals(raw), noData as real, undetect as real, true).value, l, true) == Success(Readout(Some(raw), noData, undetect))
  {
    WriteEffect(c, l, Reals(raw), noData as real, undetect as real, true);
    IntegralUnchanged(noData);
    IntegralUnchanged(undetect);
    var a := CheckedArray(c, l).value;
    var stored := StoreAs(a.elem, Reals(raw));
    forall i | 0 <= i < |raw|
      ensures Truncated(stored)[i] == raw[i]
    {
      IntegralUnchanged(raw[i]);
    }
    assert Truncated(stored) == raw;
  }

  /** Integers written to a calibrated layer are rounded into stored values
      and rounded again on the way out: each comes back within half the gain
      plus a half, and exactly when the gain is below one in magnitude. */
  lemma CalibratedIntRoundTrip(c: Container, l: Layer, raw: seq<int>, noData: int, undetect: int)
    requires |raw| == l.size && Write(c, l, Reals(raw), noData as real, undetect as real, true).Success?
    requires Calibrated(l.gain, l.offset)
    ensures l.gain != 0.0
    ensures var r := ReadInt(Write(c, l, Reals(raw), noData as real, undetect as real, true).value, l, true);
            && r.Success? && r.value.values.Some? && |r.value.values.value| == |raw|
            && (forall i :: 0 <= i < |raw| ==> Abs(r.value.values.value[i] as real - raw[i] as real) <= Abs(l.gain) / 2.0 + 0.5)
            && Abs(r.value.noData as real - noData as real) <= Abs(l.gain) / 2.0 + 0.5
            && Abs(r.value.undetect as real - undetect as real) <= Abs(l.gain) / 2.0 + 0.5
    ensures Abs(l.gain) < 1.0 ==>
              ReadInt(Write(c, l, Reals(raw), noData as real, undetect as real, true).value, l, true) == Success(Readout(Some(raw), noData, undetect))
  {
    WriteEffect(c, l, Reals(raw), noData as real, undetect as real, true);
    var (vs, end, eud) := Encode(l, Reals(raw), noData as real, undetect as real, true).value;
    var g, o := l.gain, l.offset;
    var w := l.WhatPath();
    var a := CheckedArray(c, l).value;
    var c2 := Write(c, l, Reals(raw), noData as real, undetect as real, true).value;
    var r := ReadInt(c2, l, true).value;
    assert |r.values.value| == |raw|;
    forall i | 0 <= i < |raw|
      ensures r.values.value[i] == Round(ToPhysical(Round(ToStored(raw[i] as real, g, o)) as real, g, o))
    {
      var k := Round(ToStored(raw[i] as real, g, o));
      IntegralUnchanged(k);
      assert StoreAs(a.elem, vs)[i] == k as real;
    }
    forall i | 0 <= i < |raw|
      ensures Abs(r.values.value[i] as real - raw[i] as real) <= Abs(g) / 2.0 + 0.5
      ensures Abs(g) < 1.0 ==> r.values.value[i] == raw[i]
    {
      RoundedRoundTrip(raw[i], g, o);
    }
    var knd, kud := Round(ToStored(noData as real, g, o)), Round(ToStored(undetect as real, g, o));
    IntegralUnchanged(knd);
    IntegralUnchanged(kud);
    assert Kept(c, w, Codes.AtnNoData, end) == knd as real;
    assert Kept(c, w, Codes.AtnUndetect, eud) == kud as real;
    RoundedRoundTrip(noData, g, o);
    RoundedRoundTrip(undetect, g, o);
    if Abs(g) < 1.0 {
      assert r.values.value == raw;
    }
  }
}

/** The polar volume of the library's later interface. A volume is a file
    whose "datasetN" groups are scans. Each scan's layers hold one
    single-precision value per azimuth and range bin. Quantities are
    enumeration values here, not text, and a layer's values move in and out
    together with its two sentinels. */
module Volume {
  import opened Outcomes
  import opened Store
  import opened Calibration
  import Codes
  import Node
  import Attributes
  import DataLayer
  import LayerIndex
  import Product
  import Scan
  import Machine

  // ------------------------------------------------------------------ layers

  /** What a scan's list records about one of its layers. */
  datatype LayerInfo = LayerInfo(isQuality: bool, index: nat, quantity: Codes.Quantity)

  /** An open layer: its node, its family, its quantity, its calibration,
      and the number of elements its array must have. */
  datatype Layer = Layer(node: Node.Node, isQuality: bool, quantity: Codes.Quantity,
                         gain: real, offset: real, size: nat)
  {
    function DataPath(): Path { node.path + [Codes.DatData] }
    function WhatPath(): Path { node.WhatPath() }
  }

  /** A layer's values and its two sentinels, as a read returns them and a
      write takes them. */
  datatype Frame = Frame(values: seq<real>, noData: real, undetect: real)

  /** Opens layer `index` of the data or quality family inside the scan at
      `p`, whose extents are `azimuths` by `bins`. Its "what" group must
      exist and hold the calibration; its array is looked at only when
      values move. */
  function OpenLayer(c: Container, p: Path, isQuality: bool, index: nat, quantity: Codes.Quantity,
                     azimuths: nat, bins: nat): (r: Result<Layer>)
    ensures var m := LayerIndex.Member(p, DataLayer.Prefix(isQuality), index);
            r.Success? <==> && Node.OpenAt(c, m).Success? && IsGroup(c, m + [Codes.What])
                            && Attributes.GetDouble(c, m + [Codes.What], Codes.AtnGain).Success?
                            && Attributes.GetDouble(c, m + [Codes.What], Codes.AtnOffset).Success?
    ensures r.Success? ==> && Node.OpenAt(c, LayerIndex.Member(p, DataLayer.Prefix(isQuality), index)) == Success(r.value.node)
                           && Attributes.GetDouble(c, r.value.WhatPath(), Codes.AtnGain) == Success(r.value.gain)
                           && Attributes.GetDouble(c, r.value.WhatPath(), Codes.AtnOffset) == Success(r.value.offset)
                           && r.value.isQuality == isQuality && r.value.quantity == quantity
                           && r.value.size == azimuths * bins
  {
    var n :- Node.OpenIndexed(c, p, DataLayer.Prefix(isQuality), index);
    var w :- Node.WhatGroup(n);
    var gain :- Attributes.GetDouble(c, w, Codes.AtnGain);
    var offset :- Attributes.GetDouble(c, w, Codes.AtnOffset);
    Success(Layer(n, isQuality, quantity, gain, offset, azimuths * bins))
  }

  /** The attributes a new layer's "what" group receives, in order: the
      quantity's code, a gain of one, an offset of zero and the sentinels. */
  function LayerWhat(code: string, noData: real, undetect: real): seq<(string, AttrValue)>
  {
    [(Codes.AtnQuantity, Str(code)),
     (Codes.AtnGain, Double(1.0)),
     (Codes.AtnOffset, Double(0.0)),
     (Codes.AtnNoData, Double(noData)),
     (Codes.AtnUndetect, Double(undetect))]
  }

  lemma LayerWhatDistinct(code: string, noData: real, undetect: real)
    ensures Attributes.DistinctNames(LayerWhat(code, noData, undetect))
  {
  }

  /** The "what" attributes of a new layer map each name to its value. */
  lemma LayerWhatMap(code: string, noData: real, undetect: real)
    ensures var a := Attributes.EntryMap(LayerWhat(code, noData, undetect));
            && Codes.AtnGain in a && a[Codes.AtnGain] == Double(1.0)
            && Codes.AtnOffset in a && a[Codes.AtnOffset] == Double(0.0)
            && Codes.AtnNoData in a && a[Codes.AtnNoData] == Double(noData)
            && Codes.AtnUndetect in a && a[Codes.AtnUndetect] == Double(undetect)
  {
    var e := LayerWhat(code, noData, undetect);
    LayerWhatDistinct(code, noData, undetect);
    Attributes.EntryMapAt(e, 1);
    Attributes.EntryMapAt(e, 2);
    Attributes.EntryMapAt(e, 3);
    Attributes.EntryMapAt(e, 4);
  }

  /** A new layer's array: single precision, azimuths by range bins,
      chunked as one piece and deflated at the default level, holding
      `values`. */
  function LayerArray(azimuths: nat, bins: nat, values: seq<real>): Array
  {
    Array(FloatElem, [azimuths, bins], values, [azimuths, bins], DataLayer.DefaultCompression)
  }

  /** Creates layer `index` of the data or quality family inside the scan at
      `p` and writes `f` into it. Its group and "what" group come first,
      then the quantity, the identity calibration and the sentinels, then
      the array with its image attributes and the values. A quantity
      without a code cannot be written. The caller supplies one value per
      azimuth and range bin. */
  function CreateLayer(c: Container, p: Path, isQuality: bool, index: nat, quantity: Codes.Quantity,
                       azimuths: nat, bins: nat, f: Frame): (r: Result<(Container, Layer)>)
    requires |f.values| == azimuths * bins
    ensures r.Success? ==> && IsGroup(c, p) && LayerIndex.Member(p, DataLayer.Prefix(isQuality), index) !in c.objects
                           && quantity != Codes.QtyUnknown
    ensures r.Success? ==> r.value.1 == NewLayer(p, isQuality, index, quantity, azimuths, bins)
    ensures var m := LayerIndex.Member(p, DataLayer.Prefix(isQuality), index);
            IsGroup(c, p) && m !in c.objects && m + [Codes.What] !in c.objects && quantity == Codes.QtyUnknown
            ==> r == Failure(BadValue)
  {
    var ready :- Shell(c, p, isQuality, index);
    match Codes.QuantityCode(quantity)
    case None => Failure(BadValue)
    case Some(code) =>
      var c2 :- Fill(ready.0, ready.1, LayerWhat(code, f.noData, f.undetect), LayerArray(azimuths, bins, f.values));
      Success((c2, Layer(ready.1, isQuality, quantity, 1.0, 0.0, azimuths * bins)))
  }

  /** Creates a layer's group and its "what" group. */
  function Shell(c: Container, p: Path, isQuality: bool, index: nat): (r: Result<(Container, Node.Node)>)
    ensures r.Success? ==> && IsGroup(c, p) && LayerIndex.Member(p, DataLayer.Prefix(isQuality), index) !in c.objects
                           && r.value.1 == Node.Fresh(LayerIndex.Member(p, DataLayer.Prefix(isQuality), index)).(what := true)
  {
    var created :- Node.CreateIndexed(c, p, DataLayer.Prefix(isQuality), index);
    Node.CheckCreateWhat(created.0, created.1)
  }

  /** Writes `what` into the node's "what" group, then creates its array
      `arr`, marked as an image when it has two extents. */
  function Fill(c: Container, n: Node.Node, what: seq<(string, AttrValue)>, arr: Array): Result<Container>
  {
    var c1 :- Attributes.NewEach(c, n.WhatPath(), what);
    var c2 :- CreateDataset(c1, n.path, Codes.DatData, arr);
    DataLayer.MarkImage(c2, n.path + [Codes.DatData], arr.dims)
  }

  /** The layer a successful create returns: its "what" group open, no
      "where" or "how" group, the identity calibration. */
  function NewLayer(p: Path, isQuality: bool, index: nat, quantity: Codes.Quantity, azimuths: nat, bins: nat): Layer
  {
    Layer(Node.Fresh(LayerIndex.Member(p, DataLayer.Prefix(isQuality), index)).(what := true),
          isQuality, quantity, 1.0, 0.0, azimuths * bins)
  }

  /** Whether the array of `l` exists and has as many elements as `l`. */
  predicate Fits(c: Container, l: Layer)
  {
    IsDataset(c, l.DataPath()) && Extent(c.objects[l.DataPath()].kind.data.dims) == l.size
  }

  /** Reads the values and sentinels of a layer. The element count is
      checked before anything is read. A calibrated layer returns the
      physical value `v * gain + offset` of every stored value and of both
      sentinels. */
  function Read(c: Container, l: Layer): (r: Result<Frame>)
    ensures !IsDataset(c, l.DataPath()) ==> r == Failure(OpenFailure)
    ensures IsDataset(c, l.DataPath()) && !Fits(c, l) ==> r == Failure(DimensionMismatch)
    ensures r.Success? <==> && Fits(c, l)
                            && Attributes.GetDouble(c, l.WhatPath(), Codes.AtnNoData).Success?
                            && Attributes.GetDouble(c, l.WhatPath(), Codes.AtnUndetect).Success?
    ensures r.Success? && !Calibrated(l.gain, l.offset) ==>
              r.value == Frame(c.objects[l.DataPath()].kind.data.values,
                               Attributes.GetDouble(c, l.WhatPath(), Codes.AtnNoData).value,
                               Attributes.GetDouble(c, l.WhatPath(), Codes.AtnUndetect).value)
    ensures r.Success? && Calibrated(l.gain, l.offset) ==>
              var stored := c.objects[l.DataPath()].kind.data.values;
              && |r.value.values| == |stored|
              && (forall i :: 0 <= i < |stored| ==> r.value.values[i] == stored[i] * l.gain + l.offset)
              && r.value.noData == Attributes.GetDouble(c, l.WhatPath(), Codes.AtnNoData).value * l.gain + l.offset
              && r.value.undetect == Attributes.GetDouble(c, l.WhatPath(), Codes.AtnUndetect).value * l.gain + l.offset
  {
    if !IsDataset(c, l.DataPath()) then Failure(OpenFailure)
    else if !Fits(c, l) then Failure(DimensionMismatch)
    else
      var noData :- Attributes.GetDouble(c, l.WhatPath(), Codes.AtnNoData);
      var undetect :- Attributes.GetDouble(c, l.WhatPath(), Codes.AtnUndetect);
      var values := c.objects[l.DataPath()].kind.data.values;
      if Calibrated(l.gain, l.offset) then
        Success(Frame(DataLayer.Physical(values, l.gain, l.offset),
                      ToPhysical(noData, l.gain, l.offset), ToPhysical(undetect, l.gain, l.offset)))
      else Success(Frame(values, noData, undetect))
  }

  /** The frame a write stores: a calibrated layer stores
      `(v - offset) * (1 / gain)` for every value and both sentinels. */
  function Encoded(l: Layer, f: Frame): (r: Frame)
    requires !Calibrated(l.gain, l.offset) || l.gain != 0.0
    ensures |r.values| == |f.values|
    ensures !Calibrated(l.gain, l.offset) ==> r == f
    ensures Calibrated(l.gain, l.offset) ==>
              && (forall i :: 0 <= i < |f.values| ==> r.values[i] * l.gain + l.offset == f.values[i])
              && r.noData * l.gain + l.offset == f.noData
              && r.undetect * l.gain + l.offset == f.undetect
  {
    if Calibrated(l.gain, l.offset) then
      Frame(DataLayer.Stored(f.values, l.gain, l.offset),
            ToStored(f.noData, l.gain, l.offset), ToStored(f.undetect, l.gain, l.offset))
    else f
  }

  /** Writes the values and sentinels of a layer: the element count is
      checked first, the sentinels are set (in place or created) and then
      the array is overwritten. A calibrated layer stores the values mapped
      back through the calibration; a gain of zero has no inverse. */
  function Write(c: Container, l: Layer, f: Frame): (r: Result<Container>)
    requires |f.values| == l.size
    ensures !IsDataset(c, l.DataPath()) ==> r == Failure(OpenFailure)
    ensures IsDataset(c, l.DataPath()) && !Fits(c, l) ==> r == Failure(DimensionMismatch)
    ensures Fits(c, l) && Calibrated(l.gain, l.offset) && l.gain == 0.0 ==> r == Failure(NonFinite)
    ensures r.Success? <==> && Fits(c, l) && (!Calibrated(l.gain, l.offset) || l.gain != 0.0)
                            && DataLayer.SentinelsWritable(c, l.WhatPath())
    ensures r.Success? ==> DataLayer.WriteFrame(c, r.value, l.DataPath(), l.WhatPath())
    ensures r.Success? ==> && IsDataset(r.value, l.DataPath())
                           && r.value.objects[l.DataPath()].kind.data
                              == c.objects[l.DataPath()].kind.data.(values := DataLayer.StoreAs(c.objects[l.DataPath()].kind.data.elem,
                                                                                                Encoded(l, f).values))
  {
    if !IsDataset(c, l.DataPath()) then Failure(OpenFailure)
    else if !Fits(c, l) then Failure(DimensionMismatch)
    else if Calibrated(l.gain, l.offset) && l.gain == 0.0 then Failure(NonFinite)
    else
      var e := Encoded(l, f);
      var c1 :- DataLayer.PutSentinels(c, l.WhatPath(), e.noData, e.undetect);
      assert l.DataPath() != l.WhatPath() by { assert l.DataPath()[|l.node.path|] != l.WhatPath()[|l.node.path|]; }
      var a := c1.objects[l.DataPath()].kind.data;
      Success(PutValues(c1, l.DataPath(), DataLayer.StoreAs(a.elem, e.values)))
  }

  /** Under exact arithmetic, a frame written to a layer whose array and
      sentinels hold reals reads back unchanged, whether or not the layer
      is calibrated. */
  lemma WriteThenRead(c: Container, l: Layer, f: Frame)
    requires |f.values| == l.size && Write(c, l, f).Success?
    requires IsDataset(c, l.DataPath()) && c.objects[l.DataPath()].kind.data.elem != IntElem
    requires l.WhatPath() in c.objects
    requires forall name :: name in {Codes.AtnNoData, Codes.AtnUndetect} && name in c.objects[l.WhatPath()].attrs
               ==> c.objects[l.WhatPath()].attrs[name].Class() != IntegerClass
    ensures Read(Write(c, l, f).value, l) == Success(f)
  {
    var e := Encoded(l, f);
    var w := l.WhatPath();
    DataLayer.SentinelsPut(c, w, e.noData, e.undetect);
    var c1 := DataLayer.PutSentinels(c, w, e.noData, e.undetect).value;
    assert l.DataPath() != w by { assert l.DataPath()[|l.node.path|] != w[|l.node.path|]; }
    var c2 := Write(c, l, f).value;
    assert c2.objects[w] == c1.objects[w];
    assert Fits(c2, l);
    if Calibrated(l.gain, l.offset) {
      assert DataLayer.Physical(e.values, l.gain, l.offset) == f.values;
    }
  }

  /** Container `c` with a new layer group at `m`, its "what" group holding
      exactly `a`, and its array `arr` carrying the image attributes. */
  function LayerLayout(c: Container, m: Path, a: map<string, AttrValue>, arr: Array): Container
  {
    Container(c.objects[m := Object(GroupKind, map[])]
                       [m + [Codes.What] := Object(GroupKind, a)]
                       [m + [Codes.DatData] := Object(DatasetKind(arr), DataLayer.ImageAttrs)])
  }

  /** The "what" group and the array of a layer are different objects. */
  lemma DataIsNotWhat(m: Path)
    ensures m + [Codes.DatData] != m + [Codes.What] && m + [Codes.DatData] != m
  {
    assert (m + [Codes.DatData])[|m|] != (m + [Codes.What])[|m|];
  }

  /** Filling an empty "what" group and a free array name of an existing
      group with distinct attribute names and a two-dimensional array. */
  lemma FillFresh(c: Container, m: Path, what: seq<(string, AttrValue)>, arr: Array)
    requires IsGroup(c, m) && m + [Codes.What] in c.objects && c.objects[m + [Codes.What]] == Object(GroupKind, map[])
    requires m + [Codes.DatData] !in c.objects
    requires Attributes.DistinctNames(what) && |arr.dims| == 2
    ensures Fill(c, Node.Fresh(m).(what := true), what, arr)
            == Success(Container(c.objects[m + [Codes.What] := Object(GroupKind, Attributes.EntryMap(what))]
                                          [m + [Codes.DatData] := Object(DatasetKind(arr), DataLayer.ImageAttrs)]))
  {
    var w, d := m + [Codes.What], m + [Codes.DatData];
    Attributes.NewEachFresh(c, w, what);
    assert map[] + Attributes.EntryMap(what) == Attributes.EntryMap(what);
    var c1 := Container(c.objects[w := Object(GroupKind, Attributes.EntryMap(what))]);
    DataIsNotWhat(m);
    var c2 := Container(c1.objects[d := Object(DatasetKind(arr), map[])]);
    assert CreateDataset(c1, m, Codes.DatData, arr) == Success(c2);
    var n := Node.Fresh(m).(what := true);
    assert Fill(c, n, what, arr) == DataLayer.MarkImage(c2, d, arr.dims);
    DataLayer.MarkImageEmpty(c2, d, arr.dims);
    UpdateTwice(c1.objects, d, Object(DatasetKind(arr), map[]), Object(DatasetKind(arr), DataLayer.ImageAttrs));
  }

  /** The two groups of a layer under a free name inside a group of a
      well-formed container are created empty, and its array name is
      free. */
  lemma ShellFresh(c: Container, p: Path, isQuality: bool, index: nat)
    requires IsGroup(c, p) && Vacant(c, LayerIndex.Member(p, DataLayer.Prefix(isQuality), index))
    ensures var m := LayerIndex.Member(p, DataLayer.Prefix(isQuality), index);
            var c1 := Container(c.objects[m := Object(GroupKind, map[])][m + [Codes.What] := Object(GroupKind, map[])]);
            && Shell(c, p, isQuality, index) == Success((c1, Node.Fresh(m).(what := true)))
            && IsGroup(c1, m) && m + [Codes.What] in c1.objects && c1.objects[m + [Codes.What]] == Object(GroupKind, map[])
            && m + [Codes.DatData] !in c1.objects
  {
    var m := LayerIndex.Member(p, DataLayer.Prefix(isQuality), index);
    DataIsNotWhat(m);
    assert m != m + [Codes.What] && m != m + [Codes.DatData] by {
      assert |m| < |m + [Codes.What]| == |m + [Codes.DatData]|;
    }
  }

  /** Nothing exists at `m` or directly beneath it under the names a layer
      or a node uses. */
  predicate Vacant(c: Container, m: Path)
  {
    && m !in c.objects
    && m + [Codes.What] !in c.objects && m + [Codes.DatData] !in c.objects
    && m + [Codes.Where] !in c.objects && m + [Codes.How] !in c.objects
  }

  /** In a well-formed container, a name that is free has nothing beneath it. */
  lemma VacantInWellFormed(c: Container, m: Path)
    requires WellFormed(c) && m !in c.objects
    ensures Vacant(c, m)
  {
    forall h | h in {Codes.What, Codes.DatData, Codes.Where, Codes.How}
      ensures m + [h] !in c.objects
    {
      assert (m + [h])[..|m|] == m;
      NoDescendants(c, m, m + [h]);
    }
  }

  /** What creating a layer under a free name inside a group of a
      well-formed container yields, for a quantity that has a code. */
  lemma CreateLayerResult(c: Container, p: Path, isQuality: bool, index: nat, quantity: Codes.Quantity,
                          azimuths: nat, bins: nat, f: Frame)
    requires |f.values| == azimuths * bins
    requires IsGroup(c, p) && Vacant(c, LayerIndex.Member(p, DataLayer.Prefix(isQuality), index))
    requires quantity != Codes.QtyUnknown
    ensures CreateLayer(c, p, isQuality, index, quantity, azimuths, bins, f)
            == Success((LayerLayout(c, LayerIndex.Member(p, DataLayer.Prefix(isQuality), index),
                                    Attributes.EntryMap(LayerWhat(Codes.QuantityCode(quantity).value, f.noData, f.undetect)),
                                    LayerArray(azimuths, bins, f.values)),
                        NewLayer(p, isQuality, index, quantity, azimuths, bins)))
  {
    var m := LayerIndex.Member(p, DataLayer.Prefix(isQuality), index);
    var n := Node.Fresh(m).(what := true);
    var what := LayerWhat(Codes.QuantityCode(quantity).value, f.noData, f.undetect);
    var arr := LayerArray(azimuths, bins, f.values);
    var c1 := Container(c.objects[m := Object(GroupKind, map[])][m + [Codes.What] := Object(GroupKind, map[])]);
    var c2 := LayerLayout(c, m, Attributes.EntryMap(what), arr);
    assert Shell(c, p, isQuality, index) == Success((c1, n)) by {
      ShellFresh(c, p, isQuality, index);
    }
    assert Fill(c1, n, what, arr) == Success(c2) by {
      ShellFresh(c, p, isQuality, index);
      LayerWhatDistinct(Codes.QuantityCode(quantity).value, f.noData, f.undetect);
      FillLayout(c, m, what, arr);
    }
    CreateLayerSteps(c, p, isQuality, index, quantity, azimuths, bins, f, c1, c2);
  }

  /** Filling the empty groups a shell creates yields the layer layout. */
  lemma FillLayout(c: Container, m: Path, what: seq<(string, AttrValue)>, arr: Array)
    requires Attributes.DistinctNames(what) && |arr.dims| == 2
    requires var c1 := Container(c.objects[m := Object(GroupKind, map[])][m + [Codes.What] := Object(GroupKind, map[])]);
             IsGroup(c1, m) && m + [Codes.DatData] !in c1.objects
    ensures Fill(Container(c.objects[m := Object(GroupKind, map[])][m + [Codes.What] := Object(GroupKind, map[])]),
                 Node.Fresh(m).(what := true), what, arr)
            == Success(LayerLayout(c, m, Attributes.EntryMap(what), arr))
  {
    var g := Object(GroupKind, map[]);
    var c1 := Container(c.objects[m := g][m + [Codes.What] := g]);
    FillFresh(c1, m, what, arr);
    UpdateTwice(c.objects[m := g], m + [Codes.What], g, Object(GroupKind, Attributes.EntryMap(what)));
  }

  /** Creating a layer is its shell, then its filling. */
  lemma CreateLayerSteps(c: Container, p: Path, isQuality: bool, index: nat, quantity: Codes.Quantity,
                         azimuths: nat, bins: nat, f: Frame, c1: Container, c2: Container)
    requires |f.values| == azimuths * bins && quantity != Codes.QtyUnknown
    requires Shell(c, p, isQuality, index) == Success((c1, Node.Fresh(LayerIndex.Member(p, DataLayer.Prefix(isQuality), index)).(what := true)))
    requires Fill(c1, Node.Fresh(LayerIndex.Member(p, DataLayer.Prefix(isQuality), index)).(what := true),
                  LayerWhat(Codes.QuantityCode(quantity).value, f.noData, f.undetect), LayerArray(azimuths, bins, f.values))
             == Success(c2)
    ensures CreateLayer(c, p, isQuality, index, quantity, azimuths, bins, f)
            == Success((c2, NewLayer(p, isQuality, index, quantity, azimuths, bins)))
  {
  }

  /** The "what" group of a layer layout holds exactly `a`, and its array
      is `arr`. */
  lemma LayerLayoutHolds(c: Container, m: Path, a: map<string, AttrValue>, arr: Array)
    ensures m + [Codes.What] in LayerLayout(c, m, a, arr).objects
            && LayerLayout(c, m, a, arr).objects[m + [Codes.What]] == Object(GroupKind, a)
    ensures IsDataset(LayerLayout(c, m, a, arr), m + [Codes.DatData])
            && LayerLayout(c, m, a, arr).objects[m + [Codes.DatData]].kind.data == arr
  {
    DataIsNotWhat(m);
  }

  /** A layer just created reads back the frame it was created with: its
      array has the right extent and its calibration is the identity. */
  lemma CreateThenRead(c: Container, p: Path, isQuality: bool, index: nat, quantity: Codes.Quantity,
                       azimuths: nat, bins: nat, f: Frame)
    requires |f.values| == azimuths * bins
    requires IsGroup(c, p) && Vacant(c, LayerIndex.Member(p, DataLayer.Prefix(isQuality), index))
    requires quantity != Codes.QtyUnknown
    ensures CreateLayer(c, p, isQuality, index, quantity, azimuths, bins, f).Success?
    ensures var (c2, l) := CreateLayer(c, p, isQuality, index, quantity, azimuths, bins, f).value;
            Read(c2, l) == Success(f)
  {
    CreateLayerResult(c, p, isQuality, index, quantity, azimuths, bins, f);
    var e := LayerWhat(Codes.QuantityCode(quantity).value, f.noData, f.undetect);
    LayerWhatMap(Codes.QuantityCode(quantity).value, f.noData, f.undetect);
    Scan.ExtentOfTwo(azimuths, bins);
    ReadLayerLayout(c, NewLayer(p, isQuality, index, quantity, azimuths, bins), Attributes.EntryMap(e),
                    LayerArray(azimuths, bins, f.values), f.noData, f.undetect);
  }

  /** A layer just created takes any frame of its size, and the frame
      written reads back. */
  lemma WriteAfterCreate(c: Container, p: Path, isQuality: bool, index: nat, quantity: Codes.Quantity,
                         azimuths: nat, bins: nat, f: Frame, g: Frame)
    requires |f.values| == azimuths * bins && |g.values| == azimuths * bins
    requires IsGroup(c, p) && Vacant(c, LayerIndex.Member(p, DataLayer.Prefix(isQuality), index))
    requires quantity != Codes.QtyUnknown
    ensures CreateLayer(c, p, isQuality, index, quantity, azimuths, bins, f).Success?
    ensures var (c2, l) := CreateLayer(c, p, isQuality, index, quantity, azimuths, bins, f).value;
            Write(c2, l, g).Success? && Read(Write(c2, l, g).value, l) == Success(g)
  {
    CreateThenRead(c, p, isQuality, index, quantity, azimuths, bins, f);
    CreateLayerResult(c, p, isQuality, index, quantity, azimuths, bins, f);
    var (c2, l) := CreateLayer(c, p, isQuality, index, quantity, azimuths, bins, f).value;
    var m := LayerIndex.Member(p, DataLayer.Prefix(isQuality), index);
    var e := LayerWhat(Codes.QuantityCode(quantity).value, f.noData, f.undetect);
    LayerWhatMap(Codes.QuantityCode(quantity).value, f.noData, f.undetect);
    LayerLayoutHolds(c, m, Attributes.EntryMap(e), LayerArray(azimuths, bins, f.values));
    IdentityUncalibrated();
    WriteThenRead(c2, l, g);
  }

  /** An uncalibrated layer laid out with its sentinels in "what" and an
      array of its size reads back the array and the sentinels. */
  lemma ReadLayerLayout(c: Container, l: Layer, a: map<string, AttrValue>, arr: Array, noData: real, undetect: real)
    requires l.gain == 1.0 && l.offset == 0.0 && Extent(arr.dims) == l.size
    requires Codes.AtnNoData in a && a[Codes.AtnNoData] == Double(noData)
    requires Codes.AtnUndetect in a && a[Codes.AtnUndetect] == Double(undetect)
    ensures Read(LayerLayout(c, l.node.path, a, arr), l) == Success(Frame(arr.values, noData, undetect))
  {
    LayerLayoutHolds(c, l.node.path, a, arr);
    IdentityUncalibrated();
  }

  /** The new group of a layer layout over a well-formed container opens
      with its "what" group and neither "where" nor "how". */
  lemma LayerLayoutOpens(c: Container, m: Path, a: map<string, AttrValue>, arr: Array)
    requires Vacant(c, m)
    ensures Node.OpenAt(LayerLayout(c, m, a, arr), m) == Success(Node.Fresh(m).(what := true))
  {
    var l := LayerLayout(c, m, a, arr);
    forall h | h in {Codes.Where, Codes.How}
      ensures m + [h] !in l.objects
    {
      assert (m + [h])[|m|] != (m + [Codes.What])[|m|] && (m + [h])[|m|] != (m + [Codes.DatData])[|m|];
    }
    LayerLayoutHolds(c, m, a, arr);
  }

  /** A layer just created opens as the layer its creation returned. */
  lemma CreateThenOpen(c: Container, p: Path, isQuality: bool, index: nat, quantity: Codes.Quantity,
                       azimuths: nat, bins: nat, f: Frame)
    requires |f.values| == azimuths * bins
    requires IsGroup(c, p) && Vacant(c, LayerIndex.Member(p, DataLayer.Prefix(isQuality), index))
    requires quantity != Codes.QtyUnknown
    ensures CreateLayer(c, p, isQuality, index, quantity, azimuths, bins, f).Success?
    ensures var (c2, l) := CreateLayer(c, p, isQuality, index, quantity, azimuths, bins, f).value;
            OpenLayer(c2, p, isQuality, index, quantity, azimuths, bins) == Success(l)
  {
    CreateLayerResult(c, p, isQuality, index, quantity, azimuths, bins, f);
    var e := LayerWhat(Codes.QuantityCode(quantity).value, f.noData, f.undetect);
    LayerWhatMap(Codes.QuantityCode(quantity).value, f.noData, f.undetect);
    OpenLayerLayout(c, p, isQuality, index, quantity, azimuths, bins, Attributes.EntryMap(e), LayerArray(azimuths, bins, f.values));
  }

  /** A layer laid out with the identity calibration in "what" opens as a
      new layer. */
  lemma OpenLayerLayout(c: Container, p: Path, isQuality: bool, index: nat, quantity: Codes.Quantity,
                        azimuths: nat, bins: nat, a: map<string, AttrValue>, arr: Array)
    requires Vacant(c, LayerIndex.Member(p, DataLayer.Prefix(isQuality), index))
    requires Codes.AtnGain in a && a[Codes.AtnGain] == Double(1.0)
    requires Codes.AtnOffset in a && a[Codes.AtnOffset] == Double(0.0)
    ensures var m := LayerIndex.Member(p, DataLayer.Prefix(isQuality), index);
            OpenLayer(LayerLayout(c, m, a, arr), p, isQuality, index, quantity, azimuths, bins)
            == Success(NewLayer(p, isQuality, index, quantity, azimuths, bins))
  {
    var m := LayerIndex.Member(p, DataLayer.Prefix(isQuality), index);
    LayerLayoutHolds(c, m, a, arr);
    LayerLayoutOpens(c, m, a, arr);
    OpenLayerFrom(LayerLayout(c, m, a, arr), p, isQuality, index, quantity, azimuths, bins, Node.Fresh(m).(what := true), 1.0, 0.0);
  }

  /** A layer whose group opens with a "what" group holding both calibration
      numbers opens as exactly that node and calibration. */
  lemma OpenLayerFrom(c: Container, p: Path, isQuality: bool, index: nat, quantity: Codes.Quantity,
                      azimuths: nat, bins: nat, n: Node.Node, gain: real, offset: real)
    requires Node.OpenAt(c, LayerIndex.Member(p, DataLayer.Prefix(isQuality), index)) == Success(n) && n.what
    requires Attributes.GetDouble(c, n.WhatPath(), Codes.AtnGain) == Success(gain)
    requires Attributes.GetDouble(c, n.WhatPath(), Codes.AtnOffset) == Success(offset)
    ensures OpenLayer(c, p, isQuality, index, quantity, azimuths, bins)
            == Success(Layer(n, isQuality, quantity, gain, offset, azimuths * bins))
  {
  }

  /** A layer layout over a well-formed container, under a free name inside
      a group, is well formed: it is three additions in turn. */
  lemma LayerLayoutKeepsWellFormed(c: Container, m: Path, a: map<string, AttrValue>, arr: Array)
    requires WellFormed(c) && |m| > 0 && IsGroup(c, m[..|m| - 1]) && m !in c.objects
    ensures WellFormed(LayerLayout(c, m, a, arr))
  {
    var c1 := Container(c.objects[m := Object(GroupKind, map[])]);
    GroupAdded(c, m);
    DataIsNotWhat(m);
    AddKeepsWellFormed(c1, m, Codes.What, Object(GroupKind, a));
    var c2 := Add(c1, m, Codes.What, Object(GroupKind, a)).value;
    AddKeepsWellFormed(c2, m, Codes.DatData, Object(DatasetKind(arr), DataLayer.ImageAttrs));
  }

  /** Adding the layer's group keeps the container well formed and leaves
      its "what" and "data" names free. */
  lemma GroupAdded(c: Container, m: Path)
    requires WellFormed(c) && |m| > 0 && IsGroup(c, m[..|m| - 1]) && m !in c.objects
    ensures var c1 := Container(c.objects[m := Object(GroupKind, map[])]);
            WellFormed(c1) && IsGroup(c1, m)
            && m + [Codes.What] !in c1.objects && m + [Codes.DatData] !in c1.objects
  {
    var up, w, d := m[..|m| - 1], m + [Codes.What], m + [Codes.DatData];
    assert up + [m[|m| - 1]] == m;
    assert w[..|m|] == m && d[..|m|] == m;
    NoDescendants(c, m, w);
    NoDescendants(c, m, d);
    AddKeepsWellFormed(c, up, m[|m| - 1], Object(GroupKind, map[]));
  }

  // ------------------------------------------------------------------ scans

  /** A scan of the volume: its node, its extents, and the list of its
      layers in the order opening found them or adding appended them. */
  datatype Sweep = Sweep(node: Node.Node, azimuthCount: nat, rangeBinCount: nat, infos: seq<LayerInfo>)

  /** The families and numbers of `infos`, quantities left blank: what the
      numbering rules look at. */
  function Slots(infos: seq<LayerInfo>): (r: seq<LayerIndex.LayerInfo>)
    ensures |r| == |infos|
    ensures forall i :: 0 <= i < |infos| ==> r[i].isQuality == infos[i].isQuality && r[i].index == infos[i].index
  {
    seq(|infos|, i requires 0 <= i < |infos| => LayerIndex.LayerInfo(infos[i].isQuality, infos[i].index, ""))
  }

  /** The list an open builds: each stored quantity code decoded, an
      unrecognised code becoming the unknown quantity. */
  function Decoded(found: seq<LayerIndex.LayerInfo>): (r: seq<LayerInfo>)
    ensures |r| == |found|
    ensures forall i :: 0 <= i < |found| ==>
              r[i] == LayerInfo(found[i].isQuality, found[i].index, Codes.QuantityOf(found[i].quantity))
  {
    seq(|found|, i requires 0 <= i < |found| => LayerInfo(found[i].isQuality, found[i].index, Codes.QuantityOf(found[i].quantity)))
  }

  /** Two lists whose entries lie in the same families have the same
      family counts. */
  lemma {:induction false} SameFamilyCounts(a: seq<LayerIndex.LayerInfo>, b: seq<LayerIndex.LayerInfo>, fam: bool)
    requires |a| == |b| && forall i :: 0 <= i < |a| ==> a[i].isQuality == b[i].isQuality
    ensures LayerIndex.CountPart(a, fam) == LayerIndex.CountPart(b, fam)
    decreases |a|
  {
    if |a| > 0 {
      var a0, b0 := a[..|a| - 1], b[..|b| - 1];
      assert forall i :: 0 <= i < |a0| ==> a0[i] == a[i] && b0[i] == b[i];
      SameFamilyCounts(a0, b0, fam);
    }
  }

  /** Contiguous numbering depends on families and numbers only. */
  lemma SameShapeContiguous(a: seq<LayerIndex.LayerInfo>, b: seq<LayerIndex.LayerInfo>)
    requires |a| == |b| && forall i :: 0 <= i < |a| ==> a[i].isQuality == b[i].isQuality && a[i].index == b[i].index
    requires LayerIndex.Contiguous(a)
    ensures LayerIndex.Contiguous(b)
  {
    forall i | 0 <= i < |b|
      ensures b[i].index == LayerIndex.CountPart(b[..i], b[i].isQuality) + 1
    {
      SameFamilyCounts(a[..i], b[..i], b[i].isQuality);
    }
  }

  /** Appending one layer appends its slot. */
  lemma SlotsAppend(infos: seq<LayerInfo>, info: LayerInfo)
    ensures Slots(infos + [info]) == Slots(infos) + [LayerIndex.LayerInfo(info.isQuality, info.index, "")]
  {
  }

  /** Creates scan `index` of the volume: its group with "what" and "where"
      groups holding the settings, and no layers. */
  function CreateSweep(c: Container, parent: Path, index: nat, s: Scan.Settings): (r: Result<(Container, Sweep)>)
    requires s.Valid()
    ensures r.Success? <==> Scan.Create(c, parent, index, s).Success?
    ensures r.Success? ==> && r.value.0 == Scan.Create(c, parent, index, s).value.0
                           && r.value.1.node.path == Product.DatasetPath(parent, index)
                           && r.value.1.azimuthCount == s.azimuthCount && r.value.1.rangeBinCount == s.rangeBinCount
                           && r.value.1.infos == []
  {
    var created :- Scan.Create(c, parent, index, s);
    Success((created.0, Sweep(created.1.node, s.azimuthCount, s.rangeBinCount, [])))
  }

  /** Opens scan `index` of the volume: "what" and "where" must exist, the
      extents are read as `long` values and kept as `size_t`, the product
      must be a scan, and the layers are found data first, then quality. */
  function OpenSweep(c: Container, parent: Path, index: nat): (r: Result<Sweep>)
    ensures r.Success? ==> var p := Product.DatasetPath(parent, index);
              && Node.OpenAt(c, p) == Success(r.value.node)
              && r.value.node.what && r.value.node.where
              && Attributes.GetLong(c, p + [Codes.Where], Codes.AtnAzimuthCount).Success?
              && r.value.azimuthCount == Machine.AsSize(Attributes.GetLong(c, p + [Codes.Where], Codes.AtnAzimuthCount).value)
              && Attributes.GetLong(c, p + [Codes.Where], Codes.AtnRangeCount).Success?
              && r.value.rangeBinCount == Machine.AsSize(Attributes.GetLong(c, p + [Codes.Where], Codes.AtnRangeCount).value)
              && Attributes.GetProduct(c, p + [Codes.What], Codes.AtnProduct) == Success(Codes.ProdScan)
              && Product.OpenLayers(c, p).Success? && r.value.infos == Decoded(Product.OpenLayers(c, p).value)
              && LayerIndex.Contiguous(Slots(r.value.infos))
    ensures var p := Product.DatasetPath(parent, index);
            && Node.OpenAt(c, p).Success? && Node.OpenAt(c, p).value.what && Node.OpenAt(c, p).value.where
            && Attributes.GetLong(c, p + [Codes.Where], Codes.AtnAzimuthCount).Success?
            && Attributes.GetLong(c, p + [Codes.Where], Codes.AtnRangeCount).Success?
            && Attributes.GetProduct(c, p + [Codes.What], Codes.AtnProduct).Success?
            && Attributes.GetProduct(c, p + [Codes.What], Codes.AtnProduct).value != Codes.ProdScan
            ==> r == Failure(ProductMismatch)
  {
    var n :- Node.OpenIndexed(c, parent, Codes.DatasetPrefix, index);
    var w :- Node.WhatGroup(n);
    var g :- Node.WhereGroup(n);
    var azimuths :- Attributes.GetLong(c, g, Codes.AtnAzimuthCount);
    var bins :- Attributes.GetLong(c, g, Codes.AtnRangeCount);
    var product :- Attributes.GetProduct(c, w, Codes.AtnProduct);
    if product != Codes.ProdScan then Failure(ProductMismatch)
    else
      var found :- Product.OpenLayers(c, n.path);
      SameShapeContiguous(found, Slots(Decoded(found)));
      Success(Sweep(n, Machine.AsSize(azimuths), Machine.AsSize(bins), Decoded(found)))
  }

  /** A scan just created opens as the scan its creation returned: same
      group, same extents, no layers. */
  lemma SweepOpenAfterCreate(c: Container, parent: Path, index: nat, s: Scan.Settings)
    requires s.Valid() && WellFormed(c) && IsGroup(c, parent) && Product.DatasetPath(parent, index) !in c.objects
    ensures CreateSweep(c, parent, index, s).Success?
    ensures OpenSweep(CreateSweep(c, parent, index, s).value.0, parent, index) == Success(CreateSweep(c, parent, index, s).value.1)
  {
    Scan.CreateResult(c, parent, index, s);
    CreatedOpens(c, parent, index, s);
  }

  /** The container a scan's creation leaves opens as that scan. */
  lemma CreatedOpens(c: Container, parent: Path, index: nat, s: Scan.Settings)
    requires s.Valid() && WellFormed(c) && IsGroup(c, parent) && Product.DatasetPath(parent, index) !in c.objects
    ensures OpenSweep(Scan.Created(c, parent, index, s), parent, index)
            == Success(Sweep(Scan.NewScan(parent, index, s).node, s.azimuthCount, s.rangeBinCount, []))
  {
    var c2, sc := Scan.Created(c, parent, index, s), Scan.NewScan(parent, index, s);
    Scan.CreatedNode(c, parent, index, s);
    Scan.CreatedHolds(c, parent, index, s);
    Scan.ReadCounts(c2, sc, s);
    Scan.ReadProduct(c2, sc, s);
    Scan.CreatedHasNoLayers(c, parent, index, s);
    Machine.SizeThroughLong(s.azimuthCount);
    Machine.SizeThroughLong(s.rangeBinCount);
    OpenSweepFrom(c2, parent, index, sc.node, Machine.AsLong(s.azimuthCount), Machine.AsLong(s.rangeBinCount));
  }

  /** A scan group with "what" and "where" groups, both extents, the scan
      product tag and no layers opens as a scan with no layers. */
  lemma OpenSweepFrom(c: Container, parent: Path, index: nat, n: Node.Node, azimuths: int, bins: int)
    requires Node.OpenAt(c, Product.DatasetPath(parent, index)) == Success(n) && n.what && n.where
    requires Attributes.GetLong(c, n.WherePath(), Codes.AtnAzimuthCount) == Success(azimuths)
    requires Attributes.GetLong(c, n.WherePath(), Codes.AtnRangeCount) == Success(bins)
    requires Attributes.GetProduct(c, n.WhatPath(), Codes.AtnProduct) == Success(Codes.ProdScan)
    requires Product.OpenLayers(c, n.path) == Success([])
    ensures OpenSweep(c, parent, index) == Success(Sweep(n, Machine.AsSize(azimuths), Machine.AsSize(bins), []))
  {
    assert Decoded([]) == [];
  }

  /** A new scan is well formed and its empty list is consistent with the
      container, so layers can be added to it. */
  lemma SweepCreatedIsConsistent(c: Container, parent: Path, index: nat, s: Scan.Settings)
    requires s.Valid() && WellFormed(c) && IsGroup(c, parent) && Product.DatasetPath(parent, index) !in c.objects
    ensures CreateSweep(c, parent, index, s).Success?
    ensures var (c2, sw) := CreateSweep(c, parent, index, s).value;
            WellFormed(c2) && Product.Consistent(c2, sw.node.path, Slots(sw.infos))
  {
    Scan.CreatedIsConsistent(c, parent, index, s);
    assert Slots([]) == [];
  }

  /** Opens the `i`th layer of the list, sized by the scan's extents. */
  function GetLayer(c: Container, sw: Sweep, i: nat): (r: Result<Layer>)
    requires i < |sw.infos|
    ensures r.Success? ==> && r.value.node.path == LayerIndex.Member(sw.node.path, DataLayer.Prefix(sw.infos[i].isQuality), sw.infos[i].index)
                           && r.value.isQuality == sw.infos[i].isQuality && r.value.quantity == sw.infos[i].quantity
                           && r.value.size == sw.azimuthCount * sw.rangeBinCount
  {
    OpenLayer(c, sw.node.path, sw.infos[i].isQuality, sw.infos[i].index, sw.infos[i].quantity, sw.azimuthCount, sw.rangeBinCount)
  }

  /** The position of the first layer holding `quantity`, if any. */
  function FindQuantity(infos: seq<LayerInfo>, quantity: Codes.Quantity): (r: Option<nat>)
    ensures r.Some? ==> r.value < |infos| && infos[r.value].quantity == quantity
                        && forall j :: 0 <= j < r.value ==> infos[j].quantity != quantity
    ensures r.None? <==> forall j :: 0 <= j < |infos| ==> infos[j].quantity != quantity
  {
    if |infos| == 0 then None
    else if infos[0].quantity == quantity then Some(0)
    else match FindQuantity(infos[1..], quantity)
      case None => None
      case Some(i) => Some(i + 1)
  }

  /** The first layer holding `quantity` is the one FindQuantity finds. */
  lemma FirstFound(infos: seq<LayerInfo>, quantity: Codes.Quantity)
    ensures forall i :: 0 <= i < |infos| && infos[i].quantity == quantity
                        && (forall j :: 0 <= j < i ==> infos[j].quantity != quantity)
                        ==> FindQuantity(infos, quantity) == Some(i)
  {
    var r := FindQuantity(infos, quantity);
    forall i | 0 <= i < |infos| && infos[i].quantity == quantity
               && (forall j :: 0 <= j < i ==> infos[j].quantity != quantity)
      ensures r == Some(i)
    {
      assert r.Some?;
      assert r.value >= i;
      assert r.value <= i;
    }
  }

  /** Opens the first layer holding `quantity`; no such layer is no layer,
      not an error. */
  function LayerByQuantity(c: Container, sw: Sweep, quantity: Codes.Quantity): (r: Result<Option<Layer>>)
    ensures (forall j :: 0 <= j < |sw.infos| ==> sw.infos[j].quantity != quantity) ==> r == Success(None)
    ensures forall i :: 0 <= i < |sw.infos| && sw.infos[i].quantity == quantity
                        && (forall j :: 0 <= j < i ==> sw.infos[j].quantity != quantity) ==>
              match GetLayer(c, sw, i)
              case Success(l) => r == Success(Some(l))
              case Failure(e) => r == Failure(e)
  {
    FirstFound(sw.infos, quantity);
    match FindQuantity(sw.infos, quantity)
    case None => Success(None)
    case Some(i) =>
      var l :- GetLayer(c, sw, i);
      Success(Some(l))
  }

  /** Adds a layer holding `f` under the next free number of its family;
      the list grows only when the layer was created. */
  function AddLayer(c: Container, sw: Sweep, quantity: Codes.Quantity, isQuality: bool, f: Frame)
    : (r: Result<(Container, Sweep, Layer)>)
    requires |f.values| == sw.azimuthCount * sw.rangeBinCount
    ensures var index := LayerIndex.NextOf(Slots(sw.infos), isQuality);
            var created := CreateLayer(c, sw.node.path, isQuality, index, quantity, sw.azimuthCount, sw.rangeBinCount, f);
            && (r.Success? <==> created.Success?)
            && (r.Failure? ==> r.error == created.error)
            && (r.Success? ==> && r.value.0 == created.value.0 && r.value.2 == created.value.1
                               && r.value.1 == sw.(infos := sw.infos + [LayerInfo(isQuality, index, quantity)]))
  {
    var index := LayerIndex.NextOf(Slots(sw.infos), isQuality);
    var created :- CreateLayer(c, sw.node.path, isQuality, index, quantity, sw.azimuthCount, sw.rangeBinCount, f);
    Success((created.0, sw.(infos := sw.infos + [LayerInfo(isQuality, index, quantity)]), created.1))
  }

  /** Laying out the next layer of a family keeps a consistent list
      consistent once that layer's slot is appended. */
  lemma LayerLayoutConsistent(c: Container, p: Path, slots: seq<LayerIndex.LayerInfo>, isQuality: bool,
                              a: map<string, AttrValue>, arr: Array)
    requires Product.Consistent(c, p, slots)
    ensures var k := LayerIndex.NextOf(slots, isQuality);
            Product.Consistent(LayerLayout(c, LayerIndex.Member(p, DataLayer.Prefix(isQuality), k), a, arr), p,
                               slots + [LayerIndex.LayerInfo(isQuality, k, "")])
  {
    var k := LayerIndex.NextOf(slots, isQuality);
    var info := LayerIndex.LayerInfo(isQuality, k, "");
    LayerIndex.NextIsCountPlusOne(slots, isQuality, "");
    var m := LayerIndex.Member(p, DataLayer.Prefix(isQuality), k);
    var l := LayerLayout(c, m, a, arr);
    assert p != m && p != m + [Codes.What] && p != m + [Codes.DatData] by {
      assert |p| < |m| < |m + [Codes.What]| && |m + [Codes.What]| == |m + [Codes.DatData]|;
    }
    forall fam: bool, j: nat | j > LayerIndex.CountPart(slots + [info], fam)
      ensures LayerIndex.Member(p, DataLayer.Prefix(fam), j) !in l.objects
    {
      Product.CountAfterAdd(slots, info, fam);
      Product.MembersDiffer(p, fam, j, isQuality, k);
      assert |LayerIndex.Member(p, DataLayer.Prefix(fam), j)| == |m| < |m + [Codes.What]| == |m + [Codes.DatData]|;
    }
  }

  /** Creating the next layer of a family in a consistent scan succeeds for
      a quantity with a code, keeps the container well formed and the list
      with the layer's slot appended consistent, and the layer opens and
      reads back what was written. */
  lemma CreateNextLayer(c: Container, p: Path, slots: seq<LayerIndex.LayerInfo>, quantity: Codes.Quantity,
                        isQuality: bool, azimuths: nat, bins: nat, f: Frame)
    requires |f.values| == azimuths * bins
    requires WellFormed(c) && Product.Consistent(c, p, slots)
    requires quantity != Codes.QtyUnknown
    ensures var k := LayerIndex.NextOf(slots, isQuality);
            var r := CreateLayer(c, p, isQuality, k, quantity, azimuths, bins, f);
            && r.Success?
            && WellFormed(r.value.0)
            && Product.Consistent(r.value.0, p, slots + [LayerIndex.LayerInfo(isQuality, k, "")])
            && OpenLayer(r.value.0, p, isQuality, k, quantity, azimuths, bins) == Success(r.value.1)
            && Read(r.value.0, r.value.1) == Success(f)
  {
    var k := LayerIndex.NextOf(slots, isQuality);
    LayerIndex.NextIsCountPlusOne(slots, isQuality, "");
    var m := LayerIndex.Member(p, DataLayer.Prefix(isQuality), k);
    assert m !in c.objects;
    var e := LayerWhat(Codes.QuantityCode(quantity).value, f.noData, f.undetect);
    var arr := LayerArray(azimuths, bins, f.values);
    VacantInWellFormed(c, m);
    CreateLayerResult(c, p, isQuality, k, quantity, azimuths, bins, f);
    CreateThenOpen(c, p, isQuality, k, quantity, azimuths, bins, f);
    CreateThenRead(c, p, isQuality, k, quantity, azimuths, bins, f);
    assert m[..|m| - 1] == p;
    LayerLayoutKeepsWellFormed(c, m, Attributes.EntryMap(e), arr);
    LayerLayoutConsistent(c, p, slots, isQuality, Attributes.EntryMap(e), arr);
  }

  /** Adding a layer to a consistent scan succeeds for a quantity with a
      code; the new layer is numbered one past the count of its family, the
      scan stays consistent, and the layer opens from the list and reads
      back exactly what was written. */
  lemma AddLayerKeepsConsistent(c: Container, sw: Sweep, quantity: Codes.Quantity, isQuality: bool, f: Frame)
    requires |f.values| == sw.azimuthCount * sw.rangeBinCount
    requires WellFormed(c) && Product.Consistent(c, sw.node.path, Slots(sw.infos))
    requires quantity != Codes.QtyUnknown
    ensures AddLayer(c, sw, quantity, isQuality, f).Success?
    ensures var (c2, sw2, l) := AddLayer(c, sw, quantity, isQuality, f).value;
            && WellFormed(c2) && Product.Consistent(c2, sw2.node.path, Slots(sw2.infos))
            && |sw2.infos| == |sw.infos| + 1
            && sw2.infos[|sw.infos|].index == LayerIndex.CountPart(Slots(sw.infos), isQuality) + 1
            && GetLayer(c2, sw2, |sw.infos|) == Success(l)
            && Read(c2, l) == Success(f)
  {
    var k := LayerIndex.NextOf(Slots(sw.infos), isQuality);
    LayerIndex.NextIsCountPlusOne(Slots(sw.infos), isQuality, "");
    CreateNextLayer(c, sw.node.path, Slots(sw.infos), quantity, isQuality, sw.azimuthCount, sw.rangeBinCount, f);
    SlotsAppend(sw.infos, LayerInfo(isQuality, k, quantity));
  }

  // ----------------------------------------------------------------- volume

  /** An open volume: how many scans it holds. */
  datatype PolarVolume = PolarVolume(scanCount: nat)

  /** The site's location, as the root "where" group receives it. */
  function LocationEntries(latitude: real, longitude: real, height: real): seq<(string, AttrValue)>
  {
    [(Codes.AtnLatitude, Double(latitude)), (Codes.AtnLongitude, Double(longitude)), (Codes.AtnHeight, Double(height))]
  }

  /** Creates a volume's contents in a new file whose root "what" and
      "where" groups exist: the site's location, and no scans yet. */
  function Create(c: Container, latitude: real, longitude: real, height: real): (r: Result<(Container, PolarVolume)>)
    ensures r.Success? <==> Attributes.NewEach(c, [Codes.Where], LocationEntries(latitude, longitude, height)).Success?
    ensures r.Success? ==> r.value.1.scanCount == 0
  {
    var c1 :- Attributes.NewEach(c, [Codes.Where], LocationEntries(latitude, longitude, height));
    Success((c1, PolarVolume(0)))
  }

  /** The location written at creation reads back, and nothing else moves. */
  lemma LocationAfterCreate(c: Container, latitude: real, longitude: real, height: real)
    requires [Codes.Where] in c.objects
    requires forall name | name in {Codes.AtnLatitude, Codes.AtnLongitude, Codes.AtnHeight} :: name !in c.objects[[Codes.Where]].attrs
    ensures Create(c, latitude, longitude, height).Success?
    ensures var c2 := Create(c, latitude, longitude, height).value.0;
            && Attributes.GetDouble(c2, [Codes.Where], Codes.AtnLatitude) == Success(latitude)
            && Attributes.GetDouble(c2, [Codes.Where], Codes.AtnLongitude) == Success(longitude)
            && Attributes.GetDouble(c2, [Codes.Where], Codes.AtnHeight) == Success(height)
            && Attributes.OthersUnchanged(c, c2, [Codes.Where], {Codes.AtnLatitude, Codes.AtnLongitude, Codes.AtnHeight})
  {
    var g, e := [Codes.Where], LocationEntries(latitude, longitude, height);
    Attributes.NewEachFresh(c, g, e);
    var c2 := Create(c, latitude, longitude, height).value.0;
    Attributes.EntryMapAt(e, 0);
    Attributes.EntryMapAt(e, 1);
    Attributes.EntryMapAt(e, 2);
  }

  /** The path of scan `k`: "datasetK" at the root. */
  function ScanPath(k: nat): Path
  {
    Product.DatasetPath([], k)
  }

  /** The highest scan number up to `k` present, or 0 when there is none. */
  function Highest(c: Container, k: nat): (n: nat)
    ensures n <= k
    ensures n > 0 ==> ScanPath(n) in c.objects
    ensures forall j :: n < j <= k ==> ScanPath(j) !in c.objects
  {
    if k == 0 then 0
    else if ScanPath(k) in c.objects then k
    else Highest(c, k - 1)
  }

  /** The number of scans an open finds: probing down from the number of
      objects at the root, the first "datasetK" present. */
  function ScanCount(c: Container): nat
  {
    Highest(c, ChildCount(c, []))
  }

  /** Opens a volume, counting its scans by probing downward. */
  method OpenVolume(c: Container) returns (v: PolarVolume)
    ensures v.scanCount <= ChildCount(c, [])
    ensures v.scanCount > 0 ==> ScanPath(v.scanCount) in c.objects
    ensures forall j :: v.scanCount < j <= ChildCount(c, []) ==> ScanPath(j) !in c.objects
    ensures v.scanCount == ScanCount(c)
  {
    var n: nat := ChildCount(c, []);
    while n > 0 && ScanPath(n) !in c.objects
      invariant n <= ChildCount(c, [])
      invariant Highest(c, n) == ScanCount(c)
      decreases n
    {
      n := n - 1;
    }
    v := PolarVolume(n);
  }

  /** The paths of scans 1 to `n`. */
  function ScanPaths(n: nat): set<Path>
  {
    set k | 1 <= k <= n :: ScanPath(k)
  }

  /** Scans 1 to `n` have `n` distinct paths. */
  lemma {:induction false} ScanPathsSize(n: nat)
    ensures |ScanPaths(n)| == n
  {
    if n > 0 {
      ScanPathsSize(n - 1);
      assert ScanPaths(n) == ScanPaths(n - 1) + {ScanPath(n)};
      if ScanPath(n) in ScanPaths(n - 1) {
        var k :| 1 <= k <= n - 1 && ScanPath(k) == ScanPath(n);
        assert ScanPath(k)[0] == Node.IndexedName(Codes.DatasetPrefix, k);
        Node.IndexedNameInjective(Codes.DatasetPrefix, k, n);
      }
    }
  }

  /** Scans 1 to `n` exist and no scan numbered above `n` does. */
  ghost predicate HoldsScans(c: Container, n: nat)
  {
    && (forall k :: 1 <= k <= n ==> ScanPath(k) in c.objects)
    && (forall k :: k > n ==> ScanPath(k) !in c.objects)
  }

  /** A volume holding exactly scans 1 to `n` counts `n` of them. */
  lemma ScansCounted(c: Container, n: nat)
    requires HoldsScans(c, n)
    ensures ScanCount(c) == n
  {
    ScanPathsSize(n);
    assert ScanPaths(n) <= Children(c, []) by {
      forall q | q in ScanPaths(n) ensures q in Children(c, []) {
        var k :| 1 <= k <= n && q == ScanPath(k);
        assert |q| == 1;
      }
    }
    LayerIndex.SubsetSize(ScanPaths(n), Children(c, []));
    var h := ScanCount(c);
    assert h == 0 || ScanPath(h) in c.objects;
    assert n == 0 || ScanPath(n) in c.objects;
  }

  /** A scan's path is in a scan layout exactly when it was there before or
      is the new scan's own. */
  lemma LayoutScanPath(c: Container, p: Path, a: map<string, AttrValue>, b: map<string, AttrValue>, k: nat)
    ensures ScanPath(k) in Scan.Layout(c, p, a, b).objects <==> ScanPath(k) in c.objects || ScanPath(k) == p
  {
    assert |ScanPath(k)| == 1;
    if |p| >= 1 {
      assert |ScanPath(k)| < |p + [Codes.What]| == |p + [Codes.Where]|;
    } else {
      assert ScanPath(k) != p + [Codes.What] && ScanPath(k) != p + [Codes.Where] by {
        assert ScanPath(k)[0] != Codes.What && ScanPath(k)[0] != Codes.Where;
      }
    }
  }

  /** Laying out scan `n + 1` in a volume holding exactly scans 1 to `n`
      makes an open count `n + 1` scans. */
  lemma LayoutCounted(c: Container, n: nat, a: map<string, AttrValue>, b: map<string, AttrValue>)
    requires HoldsScans(c, n)
    ensures HoldsScans(Scan.Layout(c, ScanPath(n + 1), a, b), n + 1)
    ensures ScanCount(Scan.Layout(c, ScanPath(n + 1), a, b)) == n + 1
  {
    var p := ScanPath(n + 1);
    var c2 := Scan.Layout(c, p, a, b);
    forall k | k > 0
      ensures ScanPath(k) in c2.objects <==> k <= n + 1
    {
      Node.IndexedNameInjective(Codes.DatasetPrefix, k, n + 1);
      assert ScanPath(k) == p <==> ScanPath(k)[0] == p[0];
      LayoutScanPath(c, p, a, b, k);
    }
    ScansCounted(c2, n + 1);
  }

  /** Creating scan `n + 1` in a volume holding exactly scans 1 to `n`
      makes an open count `n + 1` scans. */
  lemma CreateSweepCounted(c: Container, n: nat, s: Scan.Settings)
    requires s.Valid() && WellFormed(c) && IsGroup(c, [])
    requires HoldsScans(c, n)
    ensures CreateSweep(c, [], n + 1, s).Success?
    ensures ScanCount(CreateSweep(c, [], n + 1, s).value.0) == n + 1
  {
    assert ScanPath(n + 1) !in c.objects;
    Scan.CreateResult(c, [], n + 1, s);
    LayoutCounted(c, n, Attributes.EntryMap(Scan.WhatEntries(s)), Attributes.EntryMap(Scan.WhereEntries(s)));
  }
}

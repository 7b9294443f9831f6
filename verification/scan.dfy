/** A polar scan: a "datasetN" group whose "what" group carries the product
    tag SCAN and the start and end times, whose "where" group carries the
    sweep geometry, and whose layers are all azimuths by range bins. */
module Scan {
  import opened Outcomes
  import opened Store
  import Codes
  import Machine
  import Numeric
  import Timestamp
  import Attributes
  import Node
  import DataLayer
  import LayerIndex
  import Product

  /** An open scan: its node, the two extents every layer has, and its
      layers in the order they were found or added. */
  datatype Scan = Scan(node: Node.Node, azimuthCount: nat, rangeBinCount: nat, infos: seq<LayerIndex.LayerInfo>)
  {
    /** The extents of every layer: azimuths, then range bins. */
    function Dims(): seq<nat> { [azimuthCount, rangeBinCount] }
  }

  /** What a scan is created with: elevation angle (degrees), azimuth and
      range-bin counts, first azimuth radiated, start of the first bin and
      bin spacing (metres), and the start and end instants (seconds since
      the Epoch). The three counts are `size_t` values. */
  datatype Settings = Settings(elevation: real, azimuthCount: nat, rangeBinCount: nat, firstAzimuth: nat,
                               rangeStart: real, rangeScale: real, startTime: int, endTime: int)
  {
    predicate Valid()
    {
      Machine.IsSize(azimuthCount) && Machine.IsSize(rangeBinCount) && Machine.IsSize(firstAzimuth)
    }
  }

  // ---------------------------------------------------------------- creating

  /** The attributes of a new scan's "what" group. */
  function WhatEntries(s: Settings): seq<(string, AttrValue)>
  {
    Product.Stamped(Codes.ProdScan, s.startTime, s.endTime)
  }

  /** The attributes of a "where" group, in the order a new scan creates
      them. */
  function WhereOf(elevation: real, bins: int, startKm: real, scale: real, rays: int, first: int)
    : seq<(string, AttrValue)>
  {
    [(Codes.AtnElevation, Double(elevation)),
     (Codes.AtnRangeCount, Long(bins)),
     (Codes.AtnRangeStart, Double(startKm)),
     (Codes.AtnRangeScale, Double(scale)),
     (Codes.AtnAzimuthCount, Long(rays)),
     (Codes.AtnFirstAzimuth, Long(first))]
  }

  /** The attributes of a new scan's "where" group: the range start is
      stored in kilometres and the counts as signed 64-bit integers. */
  function WhereEntries(s: Settings): seq<(string, AttrValue)>
  {
    WhereOf(s.elevation, Machine.AsLong(s.rangeBinCount), s.rangeStart / 1000.0, s.rangeScale,
            Machine.AsLong(s.azimuthCount), Machine.AsLong(s.firstAzimuth))
  }

  /** A "where" group holding exactly these attributes reads each back. */
  lemma WhereReads(c: Container, g: Path, elevation: real, bins: int, startKm: real, scale: real, rays: int, first: int)
    requires g in c.objects && c.objects[g].attrs == Attributes.EntryMap(WhereOf(elevation, bins, startKm, scale, rays, first))
    ensures ReadAttr(c, g, Codes.AtnElevation) == Success(Double(elevation))
    ensures ReadAttr(c, g, Codes.AtnRangeCount) == Success(Long(bins))
    ensures ReadAttr(c, g, Codes.AtnRangeStart) == Success(Double(startKm))
    ensures ReadAttr(c, g, Codes.AtnRangeScale) == Success(Double(scale))
    ensures ReadAttr(c, g, Codes.AtnAzimuthCount) == Success(Long(rays))
    ensures ReadAttr(c, g, Codes.AtnFirstAzimuth) == Success(Long(first))
  {
    var e := WhereOf(elevation, bins, startKm, scale, rays, first);
    WhereNamesDistinct(elevation, bins, startKm, scale, rays, first);
    Attributes.ReadEntry(c, g, e, 0);
    Attributes.ReadEntry(c, g, e, 1);
    Attributes.ReadEntry(c, g, e, 2);
    Attributes.ReadEntry(c, g, e, 3);
    Attributes.ReadEntry(c, g, e, 4);
    Attributes.ReadEntry(c, g, e, 5);
  }

  lemma WhereNamesDistinct(elevation: real, bins: int, startKm: real, scale: real, rays: int, first: int)
    ensures Attributes.DistinctNames(WhereOf(elevation, bins, startKm, scale, rays, first))
  {
  }

  lemma WhatDistinct(s: Settings)
    ensures Attributes.DistinctNames(WhatEntries(s))
  {
    Product.StampedDistinct(Codes.ProdScan, s.startTime, s.endTime);
  }

  lemma WhereDistinct(s: Settings)
    ensures Attributes.DistinctNames(WhereEntries(s))
  {
    WhereNamesDistinct(s.elevation, Machine.AsLong(s.rangeBinCount), s.rangeStart / 1000.0, s.rangeScale,
                       Machine.AsLong(s.azimuthCount), Machine.AsLong(s.firstAzimuth));
  }

  /** Writes attributes `what` and `where`, in order, through the node's
      "what" and "where" handles. */
  function Describe(c: Container, n: Node.Node, what: seq<(string, AttrValue)>, where: seq<(string, AttrValue)>)
    : Result<Container>
  {
    var w :- Node.WhatGroup(n);
    var c1 :- Attributes.NewEach(c, w, what);
    var g :- Node.WhereGroup(n);
    Attributes.NewEach(c1, g, where)
  }

  /** The create constructor as it stands: it creates the scan's group and
      then writes through "what" and "where" handles it never opened, so it
      always fails. */
  function CreateAsWritten(c: Container, parent: Path, index: nat, s: Settings): (r: Result<(Container, Scan)>)
    requires s.Valid()
    ensures r.Failure?
    ensures IsGroup(c, parent) && Product.DatasetPath(parent, index) !in c.objects ==> r == Failure(OpenFailure)
  {
    var created :- Node.CreateIndexed(c, parent, Codes.DatasetPrefix, index);
    match Describe(created.0, created.1, WhatEntries(s), WhereEntries(s))
    case Failure(e) => Failure(e)
    case Success(c2) => Success((c2, Scan(created.1, s.azimuthCount, s.rangeBinCount, [])))
  }

  /** Creates group `index` inside `parent` together with its "what" and
      "where" groups. */
  function Groups(c: Container, parent: Path, index: nat): (r: Result<(Container, Node.Node)>)
    ensures r.Success? ==> IsGroup(c, parent) && Product.DatasetPath(parent, index) !in c.objects
    ensures r.Success? ==> r.value.1 == Node.Node(Product.DatasetPath(parent, index), true, true, false, 0)
  {
    var created :- Node.CreateIndexed(c, parent, Codes.DatasetPrefix, index);
    var w :- Node.CheckCreateWhat(created.0, created.1);
    Node.CheckCreateWhere(w.0, w.1)
  }

  /** Creates scan `index` inside `parent`, creating its "what" and "where"
      groups before writing into them. */
  function Create(c: Container, parent: Path, index: nat, s: Settings): (r: Result<(Container, Scan)>)
    requires s.Valid()
    ensures r.Success? ==> IsGroup(c, parent) && Product.DatasetPath(parent, index) !in c.objects
    ensures r.Success? ==> r.value.1 == Scan(Node.Node(Product.DatasetPath(parent, index), true, true, false, 0),
                                            s.azimuthCount, s.rangeBinCount, [])
  {
    var g :- Groups(c, parent, index);
    var c2 :- Describe(g.0, g.1, WhatEntries(s), WhereEntries(s));
    Success((c2, Scan(g.1, s.azimuthCount, s.rangeBinCount, [])))
  }

  /** Container `c` with a new group at `p` whose "what" and "where" groups
      hold exactly the attributes `a` and `b`. */
  function Layout(c: Container, p: Path, a: map<string, AttrValue>, b: map<string, AttrValue>): Container
  {
    Container(c.objects[p := Object(GroupKind, map[])]
                       [p + [Codes.What] := Object(GroupKind, a)]
                       [p + [Codes.Where] := Object(GroupKind, b)])
  }

  /** The container a successful create leaves: the scan's group and its
      "what" and "where" groups holding exactly the scan's attributes. */
  function Created(c: Container, parent: Path, index: nat, s: Settings): Container
  {
    Layout(c, Product.DatasetPath(parent, index), Attributes.EntryMap(WhatEntries(s)), Attributes.EntryMap(WhereEntries(s)))
  }

  lemma MetadataDistinct(p: Path)
    ensures p + [Codes.What] != p + [Codes.Where]
  {
    assert (p + [Codes.What])[|p|] != (p + [Codes.Where])[|p|];
  }

  /** A path whose group and metadata groups are all free. */
  predicate Vacant(c: Container, p: Path)
  {
    p !in c.objects && p + [Codes.What] !in c.objects && p + [Codes.Where] !in c.objects
  }

  /** In a well-formed container a free path is vacant. */
  lemma VacantInWellFormed(c: Container, p: Path)
    requires WellFormed(c) && p !in c.objects
    ensures Vacant(c, p)
  {
    var w, g := p + [Codes.What], p + [Codes.Where];
    assert w[..|p|] == p && g[..|p|] == p;
    NoDescendants(c, p, w);
    NoDescendants(c, p, g);
  }

  /** The three groups of a vacant name inside a group are created empty. */
  lemma GroupsFresh(c: Container, parent: Path, index: nat)
    requires IsGroup(c, parent) && Vacant(c, Product.DatasetPath(parent, index))
    ensures Groups(c, parent, index) == Success((Layout(c, Product.DatasetPath(parent, index), map[], map[]),
                                                 Node.Node(Product.DatasetPath(parent, index), true, true, false, 0)))
  {
    MetadataDistinct(Product.DatasetPath(parent, index));
  }

  /** Writing distinct names into empty "what" and "where" groups leaves
      them holding exactly those attributes. */
  lemma DescribeFresh(c: Container, p: Path, what: seq<(string, AttrValue)>, where: seq<(string, AttrValue)>)
    requires p + [Codes.What] in c.objects && c.objects[p + [Codes.What]] == Object(GroupKind, map[])
    requires p + [Codes.Where] in c.objects && c.objects[p + [Codes.Where]] == Object(GroupKind, map[])
    requires Attributes.DistinctNames(what) && Attributes.DistinctNames(where)
    ensures Describe(c, Node.Node(p, true, true, false, 0), what, where)
            == Success(Container(c.objects[p + [Codes.What] := Object(GroupKind, Attributes.EntryMap(what))]
                                          [p + [Codes.Where] := Object(GroupKind, Attributes.EntryMap(where))]))
  {
    var w, g := p + [Codes.What], p + [Codes.Where];
    MetadataDistinct(p);
    Attributes.NewEachFresh(c, w, what);
    assert map[] + Attributes.EntryMap(what) == Attributes.EntryMap(what);
    var c1 := Container(c.objects[w := Object(GroupKind, Attributes.EntryMap(what))]);
    Attributes.NewEachFresh(c1, g, where);
    assert map[] + Attributes.EntryMap(where) == Attributes.EntryMap(where);
  }

  /** Filling the metadata groups of an empty layout gives the full layout. */
  lemma LayoutFilled(c: Container, p: Path, a: map<string, AttrValue>, b: map<string, AttrValue>)
    ensures Layout(c, p, map[], map[]).objects[p + [Codes.What] := Object(GroupKind, a)]
                                              [p + [Codes.Where] := Object(GroupKind, b)]
            == Layout(c, p, a, b).objects
  {
    MetadataDistinct(p);
  }

  /** Creating the groups and then writing distinct names into them yields
      the layout holding exactly those attributes. */
  lemma GroupsDescribed(c: Container, parent: Path, index: nat, what: seq<(string, AttrValue)>, where: seq<(string, AttrValue)>)
    requires IsGroup(c, parent) && Vacant(c, Product.DatasetPath(parent, index))
    requires Attributes.DistinctNames(what) && Attributes.DistinctNames(where)
    ensures Groups(c, parent, index).Success?
    ensures var g := Groups(c, parent, index).value;
            Describe(g.0, g.1, what, where)
              == Success(Layout(c, Product.DatasetPath(parent, index), Attributes.EntryMap(what), Attributes.EntryMap(where)))
  {
    var p := Product.DatasetPath(parent, index);
    GroupsFresh(c, parent, index);
    MetadataDistinct(p);
    DescribeFresh(Layout(c, p, map[], map[]), p, what, where);
    LayoutFilled(c, p, Attributes.EntryMap(what), Attributes.EntryMap(where));
  }

  /** Creating a scan under a vacant name inside a group succeeds and adds
      exactly the scan's three groups. */
  lemma CreateContents(c: Container, parent: Path, index: nat, s: Settings)
    requires s.Valid() && IsGroup(c, parent) && Vacant(c, Product.DatasetPath(parent, index))
    ensures Create(c, parent, index, s).Success?
    ensures Create(c, parent, index, s).value.0 == Created(c, parent, index, s)
  {
    WhatDistinct(s);
    WhereDistinct(s);
    GroupsDescribed(c, parent, index, WhatEntries(s), WhereEntries(s));
  }

  /** The parent of every object of a layout over a well-formed container is
      a group. */
  lemma LayoutParent(c: Container, p: Path, a: map<string, AttrValue>, b: map<string, AttrValue>, q: Path)
    requires WellFormed(c) && |p| > 0 && IsGroup(c, p[..|p| - 1]) && p !in c.objects
    requires q in Layout(c, p, a, b).objects && q != []
    ensures IsGroup(Layout(c, p, a, b), q[..|q| - 1])
  {
    var up := q[..|q| - 1];
    var w, g := p + [Codes.What], p + [Codes.Where];
    if q == p {
      assert |up| < |w| && |up| < |g|;
    } else if q == w || q == g {
      assert up == p;
    } else {
      assert q in c.objects;
    }
  }

  /** Adding a group and its two metadata groups keeps every object inside
      a group. */
  lemma LayoutKeepsWellFormed(c: Container, p: Path, a: map<string, AttrValue>, b: map<string, AttrValue>)
    requires WellFormed(c) && |p| > 0 && IsGroup(c, p[..|p| - 1]) && p !in c.objects
    ensures WellFormed(Layout(c, p, a, b))
  {
    forall q | q in Layout(c, p, a, b).objects && q != []
      ensures IsGroup(Layout(c, p, a, b), q[..|q| - 1])
    {
      LayoutParent(c, p, a, b, q);
    }
  }

  /** Creating a scan keeps every object inside a group. */
  lemma CreateKeepsWellFormed(c: Container, parent: Path, index: nat, s: Settings)
    requires s.Valid() && WellFormed(c) && IsGroup(c, parent) && Product.DatasetPath(parent, index) !in c.objects
    ensures WellFormed(Created(c, parent, index, s))
  {
    var p := Product.DatasetPath(parent, index);
    assert p[..|p| - 1] == parent;
    LayoutKeepsWellFormed(c, p, Attributes.EntryMap(WhatEntries(s)), Attributes.EntryMap(WhereEntries(s)));
  }

  // ----------------------------------------------------------------- opening

  /** Opens scan `index` inside `parent`: the azimuth and range-bin counts
      come from "where", the product tag in "what" must be SCAN, and the
      layers are found by probing. */
  function Open(c: Container, parent: Path, index: nat): (r: Result<Scan>)
    ensures r.Success? ==> var p := Product.DatasetPath(parent, index);
              && Node.OpenAt(c, p) == Success(r.value.node)
              && r.value.node.what && r.value.node.where
              && Attributes.GetLong(c, p + [Codes.Where], Codes.AtnAzimuthCount).Success?
              && r.value.azimuthCount == Machine.AsSize(Attributes.GetLong(c, p + [Codes.Where], Codes.AtnAzimuthCount).value)
              && Attributes.GetLong(c, p + [Codes.Where], Codes.AtnRangeCount).Success?
              && r.value.rangeBinCount == Machine.AsSize(Attributes.GetLong(c, p + [Codes.Where], Codes.AtnRangeCount).value)
              && Attributes.GetProduct(c, p + [Codes.What], Codes.AtnProduct) == Success(Codes.ProdScan)
              && Product.OpenLayers(c, p) == Success(r.value.infos)
    ensures var p := Product.DatasetPath(parent, index);
            && Node.OpenAt(c, p).Success? && Node.OpenAt(c, p).value.what && Node.OpenAt(c, p).value.where
            && Attributes.GetLong(c, p + [Codes.Where], Codes.AtnAzimuthCount).Success?
            && Attributes.GetLong(c, p + [Codes.Where], Codes.AtnRangeCount).Success?
            && Attributes.GetProduct(c, p + [Codes.What], Codes.AtnProduct).Success?
            && Attributes.GetProduct(c, p + [Codes.What], Codes.AtnProduct).value != Codes.ProdScan
            ==> r == Failure(ProductMismatch)
  {
    var n :- Node.OpenIndexed(c, parent, Codes.DatasetPrefix, index);
    var g :- Node.WhereGroup(n);
    var azimuths :- Attributes.GetLong(c, g, Codes.AtnAzimuthCount);
    var bins :- Attributes.GetLong(c, g, Codes.AtnRangeCount);
    var w :- Node.WhatGroup(n);
    var product :- Attributes.GetProduct(c, w, Codes.AtnProduct);
    if product != Codes.ProdScan then Failure(ProductMismatch)
    else
      var infos :- Product.OpenLayers(c, n.path);
      Success(Scan(n, Machine.AsSize(azimuths), Machine.AsSize(bins), infos))
  }

  // --------------------------------------------------------------- accessors

  /** The elevation angle, from "where". */
  function Elevation(c: Container, sc: Scan): Result<real>
  {
    var g :- Node.WhereGroup(sc.node);
    Attributes.GetDouble(c, g, Codes.AtnElevation)
  }

  /** The first azimuth radiated, read as a `long` and returned as a `size_t`. */
  function FirstAzimuth(c: Container, sc: Scan): Result<nat>
  {
    var g :- Node.WhereGroup(sc.node);
    var n :- Attributes.GetLong(c, g, Codes.AtnFirstAzimuth);
    Success(Machine.AsSize(n))
  }

  /** The start of the first bin in metres; "where" stores it in kilometres. */
  function RangeStart(c: Container, sc: Scan): Result<real>
  {
    var g :- Node.WhereGroup(sc.node);
    var km :- Attributes.GetDouble(c, g, Codes.AtnRangeStart);
    Success(km * 1000.0)
  }

  /** The bin spacing in metres. */
  function RangeScale(c: Container, sc: Scan): Result<real>
  {
    var g :- Node.WhereGroup(sc.node);
    Attributes.GetDouble(c, g, Codes.AtnRangeScale)
  }

  /** The instant the scan started, from the date and time texts in "what". */
  function StartTime(c: Container, sc: Scan): Result<int>
  {
    var w :- Node.WhatGroup(sc.node);
    Attributes.GetTime(c, w, Codes.AtnStartDate, Codes.AtnStartTime)
  }

  /** The instant the scan ended. */
  function EndTime(c: Container, sc: Scan): Result<int>
  {
    var w :- Node.WhatGroup(sc.node);
    Attributes.GetTime(c, w, Codes.AtnEndDate, Codes.AtnEndTime)
  }

  /** The number of layers: every data layer and every quality layer. */
  function LayerCount(sc: Scan): (r: nat)
    ensures r == LayerIndex.CountPart(sc.infos, false) + LayerIndex.CountPart(sc.infos, true)
  {
    LayerIndex.PartsCover(sc.infos);
    |sc.infos|
  }

  /** The quantity the `i`th layer holds. */
  function LayerQuantity(sc: Scan, i: nat): (r: string)
    requires i < |sc.infos|
    ensures r == sc.infos[i].quantity
    ensures LayerIndex.Find(sc.infos, r).Some? && LayerIndex.Find(sc.infos, r).value <= i
  {
    sc.infos[i].quantity
  }

  // ------------------------------------------------------------------ layers

  /** The number of elements of a layer with extents `dims`, given two extents. */
  lemma ExtentOfTwo(a: nat, b: nat)
    ensures Extent([a, b]) == a * b
  {
    assert [a][..0] == [];
    assert Extent([a]) == a;
    assert [a, b][..1] == [a];
  }

  /** Opens the `i`th layer: its family, number and quantity are those the
      list records, and it spans every azimuth and range bin. */
  function Layer(c: Container, sc: Scan, i: nat): (r: Result<DataLayer.Layer>)
    requires i < |sc.infos|
    ensures r.Success? ==> && r.value.isQuality == sc.infos[i].isQuality
                           && r.value.quantity == sc.infos[i].quantity
                           && r.value.size == sc.azimuthCount * sc.rangeBinCount
                           && Node.OpenIndexed(c, sc.node.path, DataLayer.Prefix(sc.infos[i].isQuality), sc.infos[i].index)
                              == Success(r.value.node)
  {
    ExtentOfTwo(sc.azimuthCount, sc.rangeBinCount);
    Product.LayerAt(c, sc.node.path, sc.infos, i, sc.Dims())
  }

  /** Opens the first layer holding `quantity`; none, and no error, when no
      layer holds it. */
  function LayerByQuantity(c: Container, sc: Scan, quantity: string): (r: Result<Option<DataLayer.Layer>>)
    ensures (forall j :: 0 <= j < |sc.infos| ==> sc.infos[j].quantity != quantity) ==> r == Success(None)
    ensures forall i :: 0 <= i < |sc.infos| && sc.infos[i].quantity == quantity
                        && (forall j :: 0 <= j < i ==> sc.infos[j].quantity != quantity) ==>
              match Layer(c, sc, i)
              case Success(l) => r == Success(Some(l))
              case Failure(e) => r == Failure(e)
  {
    LayerIndex.FindFirst(sc.infos, quantity);
    Product.LayerOf(c, sc.node.path, sc.infos, quantity, sc.Dims())
  }

  /** Adds a data or quality layer, numbered one past the last of its
      family, spanning every azimuth and range bin. The list grows by this
      one layer only when it was created. */
  function AddLayer(c: Container, sc: Scan, quantity: string, isQuality: bool, floating: bool)
    : (r: Result<(Container, Scan, DataLayer.Layer)>)
    ensures r.Success? ==> r.value.1 == sc.(infos := sc.infos + [LayerIndex.LayerInfo(isQuality, LayerIndex.NextOf(sc.infos, isQuality), quantity)])
    ensures r.Success? ==> r.value.2.size == sc.azimuthCount * sc.rangeBinCount
                           && r.value.2.quantity == quantity && r.value.2.isQuality == isQuality
                           && r.value.2.floating == floating
    ensures r.Failure? <==> DataLayer.Create(c, sc.node.path, floating, isQuality, LayerIndex.NextOf(sc.infos, isQuality),
                                             quantity, sc.Dims()).Failure?
  {
    ExtentOfTwo(sc.azimuthCount, sc.rangeBinCount);
    var added :- Product.AddLayer(c, sc.node.path, sc.infos, sc.Dims(), quantity, isQuality, floating);
    Success((added.0, sc.(infos := added.1), added.2))
  }

  // ------------------------------------------------------------- round trips

  /** A layout's group opens with its "what" and "where" groups and no
      "how" group. */
  lemma LayoutNode(c: Container, parent: Path, index: nat, a: map<string, AttrValue>, b: map<string, AttrValue>)
    requires WellFormed(c) && IsGroup(c, parent) && Product.DatasetPath(parent, index) !in c.objects
    ensures Node.OpenIndexed(Layout(c, Product.DatasetPath(parent, index), a, b), parent, Codes.DatasetPrefix, index)
            == Success(Node.Node(Product.DatasetPath(parent, index), true, true, false, 0))
  {
    var p := Product.DatasetPath(parent, index);
    var h := p + [Codes.How];
    MetadataDistinct(p);
    assert h[..|p|] == p;
    NoDescendants(c, p, h);
    assert h != p + [Codes.What] && h != p + [Codes.Where] by {
      assert h[|p|] != (p + [Codes.What])[|p|] && h[|p|] != (p + [Codes.Where])[|p|];
    }
  }

  /** The new scan's group opens with its "what" and "where" groups and no
      "how" group. */
  lemma CreatedNode(c: Container, parent: Path, index: nat, s: Settings)
    requires WellFormed(c) && IsGroup(c, parent) && Product.DatasetPath(parent, index) !in c.objects
    ensures Node.OpenIndexed(Created(c, parent, index, s), parent, Codes.DatasetPrefix, index)
            == Success(Node.Node(Product.DatasetPath(parent, index), true, true, false, 0))
  {
    LayoutNode(c, parent, index, Attributes.EntryMap(WhatEntries(s)), Attributes.EntryMap(WhereEntries(s)));
  }

  /** The "what" group of `sc` is open and holds exactly the attributes a
      scan created with settings `s` writes there. */
  predicate WhatHolds(c: Container, sc: Scan, s: Settings)
  {
    sc.node.what && sc.node.WhatPath() in c.objects && c.objects[sc.node.WhatPath()].attrs == Attributes.EntryMap(WhatEntries(s))
  }

  /** The same for the "where" group. */
  predicate WhereHolds(c: Container, sc: Scan, s: Settings)
  {
    sc.node.where && sc.node.WherePath() in c.objects && c.objects[sc.node.WherePath()].attrs == Attributes.EntryMap(WhereEntries(s))
  }

  /** No member of either layer family exists in a layout over a
      well-formed container. */
  lemma LayoutHasNoMembers(c: Container, p: Path, a: map<string, AttrValue>, b: map<string, AttrValue>,
                           isQuality: bool, j: nat)
    requires WellFormed(c) && p !in c.objects
    ensures LayerIndex.Member(p, DataLayer.Prefix(isQuality), j) !in Layout(c, p, a, b).objects
  {
    var m := LayerIndex.Member(p, DataLayer.Prefix(isQuality), j);
    var name := Node.IndexedName(DataLayer.Prefix(isQuality), j);
    assert m[..|p|] == p;
    NoDescendants(c, p, m);
    assert name[0] == DataLayer.Prefix(isQuality)[0];
    assert m != p + [Codes.What] by { assert m[|p|] != Codes.What; }
    assert m != p + [Codes.Where] by { assert m[|p|] != Codes.Where; }
  }

  /** No layer of either family opens in a layout over a well-formed
      container. */
  lemma LayoutHasNoLayers(c: Container, p: Path, a: map<string, AttrValue>, b: map<string, AttrValue>)
    requires WellFormed(c) && p !in c.objects
    ensures Product.OpenLayers(Layout(c, p, a, b), p) == Success([])
  {
    LayoutHasNoMembers(c, p, a, b, false, 1);
    LayoutHasNoMembers(c, p, a, b, true, 1);
  }

  /** A layout over a well-formed container is consistent with an empty
      layer list. */
  lemma LayoutConsistent(c: Container, p: Path, a: map<string, AttrValue>, b: map<string, AttrValue>)
    requires WellFormed(c) && p !in c.objects
    ensures Product.Consistent(Layout(c, p, a, b), p, [])
  {
    forall isQuality: bool, j: nat | j > 0
      ensures LayerIndex.Member(p, DataLayer.Prefix(isQuality), j) !in Layout(c, p, a, b).objects
    {
      LayoutHasNoMembers(c, p, a, b, isQuality, j);
    }
  }

  /** No layer of either family exists in a new scan. */
  lemma CreatedHasNoLayers(c: Container, parent: Path, index: nat, s: Settings)
    requires WellFormed(c) && Product.DatasetPath(parent, index) !in c.objects
    ensures Product.OpenLayers(Created(c, parent, index, s), Product.DatasetPath(parent, index)) == Success([])
  {
    LayoutHasNoLayers(c, Product.DatasetPath(parent, index), Attributes.EntryMap(WhatEntries(s)), Attributes.EntryMap(WhereEntries(s)));
  }

  /** The scan a successful create returns. */
  function NewScan(parent: Path, index: nat, s: Settings): Scan
  {
    Scan(Node.Node(Product.DatasetPath(parent, index), true, true, false, 0), s.azimuthCount, s.rangeBinCount, [])
  }

  /** What creating a scan under a free name inside a group yields. */
  lemma CreateResult(c: Container, parent: Path, index: nat, s: Settings)
    requires s.Valid() && WellFormed(c) && IsGroup(c, parent) && Product.DatasetPath(parent, index) !in c.objects
    ensures Create(c, parent, index, s) == Success((Created(c, parent, index, s), NewScan(parent, index, s)))
  {
    VacantInWellFormed(c, Product.DatasetPath(parent, index));
    CreateContents(c, parent, index, s);
  }

  /** The metadata groups of a layout hold exactly the attributes given. */
  lemma LayoutMetadata(c: Container, p: Path, a: map<string, AttrValue>, b: map<string, AttrValue>)
    ensures p + [Codes.What] in Layout(c, p, a, b).objects && Layout(c, p, a, b).objects[p + [Codes.What]].attrs == a
    ensures p + [Codes.Where] in Layout(c, p, a, b).objects && Layout(c, p, a, b).objects[p + [Codes.Where]].attrs == b
  {
    MetadataDistinct(p);
  }

  /** A new scan's metadata groups hold what it was created with. */
  lemma CreatedHolds(c: Container, parent: Path, index: nat, s: Settings)
    ensures WhatHolds(Created(c, parent, index, s), NewScan(parent, index, s), s)
    ensures WhereHolds(Created(c, parent, index, s), NewScan(parent, index, s), s)
  {
    LayoutMetadata(c, Product.DatasetPath(parent, index), Attributes.EntryMap(WhatEntries(s)), Attributes.EntryMap(WhereEntries(s)));
  }

  /** The counts read back as the `long` values they were stored as. */
  lemma ReadCounts(c: Container, sc: Scan, s: Settings)
    requires WhereHolds(c, sc, s)
    ensures Attributes.GetLong(c, sc.node.WherePath(), Codes.AtnAzimuthCount) == Success(Machine.AsLong(s.azimuthCount))
    ensures Attributes.GetLong(c, sc.node.WherePath(), Codes.AtnRangeCount) == Success(Machine.AsLong(s.rangeBinCount))
  {
    WhereReads(c, sc.node.WherePath(), s.elevation, Machine.AsLong(s.rangeBinCount), s.rangeStart / 1000.0, s.rangeScale,
               Machine.AsLong(s.azimuthCount), Machine.AsLong(s.firstAzimuth));
    Numeric.IntegralUnchanged(Machine.AsLong(s.azimuthCount));
    Numeric.IntegralUnchanged(Machine.AsLong(s.rangeBinCount));
  }

  /** The product tag reads back as SCAN. */
  lemma ReadProduct(c: Container, sc: Scan, s: Settings)
    requires WhatHolds(c, sc, s)
    ensures Attributes.GetProduct(c, sc.node.WhatPath(), Codes.AtnProduct) == Success(Codes.ProdScan)
  {
    Product.ReadStampedProduct(c, sc.node.WhatPath(), Codes.ProdScan, s.startTime, s.endTime);
  }

  lemma ReadElevation(c: Container, sc: Scan, s: Settings)
    requires WhereHolds(c, sc, s)
    ensures Elevation(c, sc) == Success(s.elevation)
  {
    WhereReads(c, sc.node.WherePath(), s.elevation, Machine.AsLong(s.rangeBinCount), s.rangeStart / 1000.0, s.rangeScale,
               Machine.AsLong(s.azimuthCount), Machine.AsLong(s.firstAzimuth));
  }

  lemma ReadFirstAzimuth(c: Container, sc: Scan, s: Settings)
    requires s.Valid() && WhereHolds(c, sc, s)
    ensures FirstAzimuth(c, sc) == Success(s.firstAzimuth)
  {
    WhereReads(c, sc.node.WherePath(), s.elevation, Machine.AsLong(s.rangeBinCount), s.rangeStart / 1000.0, s.rangeScale,
               Machine.AsLong(s.azimuthCount), Machine.AsLong(s.firstAzimuth));
    Numeric.IntegralUnchanged(Machine.AsLong(s.firstAzimuth));
    Machine.SizeThroughLong(s.firstAzimuth);
  }

  lemma ReadRangeStart(c: Container, sc: Scan, s: Settings)
    requires WhereHolds(c, sc, s)
    ensures RangeStart(c, sc) == Success(s.rangeStart)
  {
    var km := s.rangeStart / 1000.0;
    WhereReads(c, sc.node.WherePath(), s.elevation, Machine.AsLong(s.rangeBinCount), km, s.rangeScale,
               Machine.AsLong(s.azimuthCount), Machine.AsLong(s.firstAzimuth));
    assert km * 1000.0 == s.rangeStart;
  }

  lemma ReadRangeScale(c: Container, sc: Scan, s: Settings)
    requires WhereHolds(c, sc, s)
    ensures RangeScale(c, sc) == Success(s.rangeScale)
  {
    WhereReads(c, sc.node.WherePath(), s.elevation, Machine.AsLong(s.rangeBinCount), s.rangeStart / 1000.0, s.rangeScale,
               Machine.AsLong(s.azimuthCount), Machine.AsLong(s.firstAzimuth));
  }

  lemma ReadTimes(c: Container, sc: Scan, s: Settings)
    requires WhatHolds(c, sc, s)
    requires 0 <= Timestamp.YearOf(s.startTime) <= 9999 && 0 <= Timestamp.YearOf(s.endTime) <= 9999
    ensures StartTime(c, sc) == Success(s.startTime)
    ensures EndTime(c, sc) == Success(s.endTime)
  {
    Product.ReadStampedTimes(c, sc.node.WhatPath(), Codes.ProdScan, s.startTime, s.endTime);
  }

  /** A scan just created opens as the scan its creation returned: same
      group, same extents, no layers. */
  lemma OpenAfterCreate(c: Container, parent: Path, index: nat, s: Settings)
    requires s.Valid() && WellFormed(c) && IsGroup(c, parent) && Product.DatasetPath(parent, index) !in c.objects
    ensures Create(c, parent, index, s).Success?
    ensures Open(Create(c, parent, index, s).value.0, parent, index) == Success(Create(c, parent, index, s).value.1)
  {
    var c2, sc := Created(c, parent, index, s), NewScan(parent, index, s);
    CreateResult(c, parent, index, s);
    CreatedNode(c, parent, index, s);
    CreatedHolds(c, parent, index, s);
    ReadCounts(c2, sc, s);
    ReadProduct(c2, sc, s);
    CreatedHasNoLayers(c, parent, index, s);
    Machine.SizeThroughLong(s.azimuthCount);
    Machine.SizeThroughLong(s.rangeBinCount);
    OpenFrom(c2, parent, index, sc.node, Machine.AsLong(s.azimuthCount), Machine.AsLong(s.rangeBinCount), []);
  }

  /** Open yields the scan its steps read. */
  lemma OpenFrom(c: Container, parent: Path, index: nat, n: Node.Node, azimuths: int, bins: int, infos: seq<LayerIndex.LayerInfo>)
    requires Node.OpenIndexed(c, parent, Codes.DatasetPrefix, index) == Success(n) && n.what && n.where
    requires Attributes.GetLong(c, n.WherePath(), Codes.AtnAzimuthCount) == Success(azimuths)
    requires Attributes.GetLong(c, n.WherePath(), Codes.AtnRangeCount) == Success(bins)
    requires Attributes.GetProduct(c, n.WhatPath(), Codes.AtnProduct) == Success(Codes.ProdScan)
    requires Product.OpenLayers(c, n.path) == Success(infos)
    ensures Open(c, parent, index) == Success(Scan(n, Machine.AsSize(azimuths), Machine.AsSize(bins), infos))
  {
  }

  /** The geometry a scan was created with reads back: the range start only
      because it is stored divided by 1000 and read multiplied by 1000. */
  lemma GeometryAfterCreate(c: Container, parent: Path, index: nat, s: Settings)
    requires s.Valid() && WellFormed(c) && IsGroup(c, parent) && Product.DatasetPath(parent, index) !in c.objects
    ensures Create(c, parent, index, s).Success?
    ensures var (c2, sc) := Create(c, parent, index, s).value;
            && Elevation(c2, sc) == Success(s.elevation)
            && FirstAzimuth(c2, sc) == Success(s.firstAzimuth)
            && RangeStart(c2, sc) == Success(s.rangeStart)
            && RangeScale(c2, sc) == Success(s.rangeScale)
            && sc.azimuthCount == s.azimuthCount && sc.rangeBinCount == s.rangeBinCount
            && LayerCount(sc) == 0
  {
    CreateResult(c, parent, index, s);
    var c2, sc := Created(c, parent, index, s), NewScan(parent, index, s);
    CreatedHolds(c, parent, index, s);
    ReadElevation(c2, sc, s);
    ReadFirstAzimuth(c2, sc, s);
    ReadRangeStart(c2, sc, s);
    ReadRangeScale(c2, sc, s);
  }

  /** The start and end instants a scan was created with read back, for
      years that print in four digits. */
  lemma TimesAfterCreate(c: Container, parent: Path, index: nat, s: Settings)
    requires s.Valid() && WellFormed(c) && IsGroup(c, parent) && Product.DatasetPath(parent, index) !in c.objects
    requires 0 <= Timestamp.YearOf(s.startTime) <= 9999 && 0 <= Timestamp.YearOf(s.endTime) <= 9999
    ensures Create(c, parent, index, s).Success?
    ensures var (c2, sc) := Create(c, parent, index, s).value;
            StartTime(c2, sc) == Success(s.startTime) && EndTime(c2, sc) == Success(s.endTime)
  {
    CreateResult(c, parent, index, s);
    CreatedHolds(c, parent, index, s);
    ReadTimes(Created(c, parent, index, s), NewScan(parent, index, s), s);
  }

  /** A new scan is well formed and its (empty) layer list is consistent
      with the container, so layers can be added to it. */
  lemma CreatedIsConsistent(c: Container, parent: Path, index: nat, s: Settings)
    requires s.Valid() && WellFormed(c) && IsGroup(c, parent) && Product.DatasetPath(parent, index) !in c.objects
    ensures Create(c, parent, index, s).Success?
    ensures var (c2, sc) := Create(c, parent, index, s).value;
            WellFormed(c2) && Product.Consistent(c2, sc.node.path, sc.infos)
  {
    CreateResult(c, parent, index, s);
    CreateKeepsWellFormed(c, parent, index, s);
    LayoutConsistent(c, Product.DatasetPath(parent, index), Attributes.EntryMap(WhatEntries(s)), Attributes.EntryMap(WhereEntries(s)));
  }

  /** Adding a layer to a consistent scan succeeds and keeps it consistent;
      the new layer is numbered one past the count of its family. */
  lemma AddLayerKeepsConsistent(c: Container, sc: Scan, quantity: string, isQuality: bool, floating: bool)
    requires WellFormed(c) && Product.Consistent(c, sc.node.path, sc.infos)
    ensures AddLayer(c, sc, quantity, isQuality, floating).Success?
    ensures var (c2, sc2, _) := AddLayer(c, sc, quantity, isQuality, floating).value;
            && WellFormed(c2) && Product.Consistent(c2, sc2.node.path, sc2.infos)
            && sc2.infos[|sc.infos|].index == LayerIndex.CountPart(sc.infos, isQuality) + 1
            && LayerCount(sc2) == LayerCount(sc) + 1
  {
    Product.AddLayerKeepsConsistent(c, sc.node.path, sc.infos, sc.Dims(), quantity, isQuality, floating);
    LayerIndex.NextIsCountPlusOne(sc.infos, isQuality, quantity);
  }

  /** As written, creating a scan fails in every container, while the
      corrected create succeeds wherever the scan's name is free. */
  lemma CreateAsWrittenFails(c: Container, parent: Path, index: nat, s: Settings)
    requires s.Valid() && WellFormed(c) && IsGroup(c, parent) && Product.DatasetPath(parent, index) !in c.objects
    ensures CreateAsWritten(c, parent, index, s) == Failure(OpenFailure)
    ensures Create(c, parent, index, s).Success?
  {
    CreateResult(c, parent, index, s);
  }
}

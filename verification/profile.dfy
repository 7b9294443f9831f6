/** A vertical profile: a "datasetN" group whose "what" group carries the
    product tag VP and the start and end times, and whose layers all hold one
    value per height level. The number of levels is not stored in the file;
    whoever opens the profile supplies it. */
module Profile {
  import opened Outcomes
  import opened Store
  import Codes
  import Timestamp
  import Attributes
  import Node
  import DataLayer
  import LayerIndex
  import Product

  /** An open profile: its node, the number of height levels of every
      layer, and its layers in the order they were found or added. */
  datatype Profile = Profile(node: Node.Node, levels: nat, infos: seq<LayerIndex.LayerInfo>)
  {
    /** The extents of every layer: a single one, the levels. */
    function Dims(): seq<nat> { [levels] }
  }

  // ---------------------------------------------------------------- creating

  /** The attributes of a new profile's "what" group. */
  function WhatEntries(startTime: int, endTime: int): seq<(string, AttrValue)>
  {
    Product.Stamped(Codes.ProdVerticalProfile, startTime, endTime)
  }

  /** Creates the profile's group and then its "what" group. */
  function Groups(c: Container, parent: Path, index: nat): Result<(Container, Node.Node)>
  {
    var created :- Node.CreateIndexed(c, parent, Codes.DatasetPrefix, index);
    Node.CheckCreateWhat(created.0, created.1)
  }

  /** Creates the profile's groups, then writes `what` into its "what"
      group. */
  function Build(c: Container, parent: Path, index: nat, levels: nat, what: seq<(string, AttrValue)>)
    : Result<(Container, Profile)>
  {
    var g :- Groups(c, parent, index);
    var w :- Node.WhatGroup(g.1);
    var c2 :- Attributes.NewEach(g.0, w, what);
    Success((c2, Profile(g.1, levels, [])))
  }

  /** Creates profile `index` inside `parent` with `levels` height levels,
      observed from `startTime` to `endTime`. */
  function Create(c: Container, parent: Path, index: nat, levels: nat, startTime: int, endTime: int)
    : (r: Result<(Container, Profile)>)
    ensures r.Success? ==> IsGroup(c, parent) && Product.DatasetPath(parent, index) !in c.objects
    ensures r.Success? ==> r.value.1 == NewProfile(parent, index, levels)
  {
    BuildOutcome(c, parent, index, levels, WhatEntries(startTime, endTime));
    Build(c, parent, index, levels, WhatEntries(startTime, endTime))
  }

  /** A build that succeeds was given a free name inside a group and returns
      the new profile. */
  lemma BuildOutcome(c: Container, parent: Path, index: nat, levels: nat, what: seq<(string, AttrValue)>)
    ensures var r := Build(c, parent, index, levels, what);
            r.Success? ==> IsGroup(c, parent) && Product.DatasetPath(parent, index) !in c.objects
                           && r.value.1 == NewProfile(parent, index, levels)
  {
  }

  /** The profile a successful create returns: its "what" group is open,
      it has no "where" or "how" group and no layers. */
  function NewProfile(parent: Path, index: nat, levels: nat): Profile
  {
    Profile(Node.Node(Product.DatasetPath(parent, index), true, false, false, 0), levels, [])
  }

  /** Container `c` with a new group at `p` whose "what" group holds
      exactly the attributes `a`. */
  function Layout(c: Container, p: Path, a: map<string, AttrValue>): Container
  {
    Container(c.objects[p := Object(GroupKind, map[])][p + [Codes.What] := Object(GroupKind, a)])
  }

  /** The container a successful create leaves. */
  function Created(c: Container, parent: Path, index: nat, startTime: int, endTime: int): Container
  {
    Layout(c, Product.DatasetPath(parent, index), Attributes.EntryMap(WhatEntries(startTime, endTime)))
  }

  /** The two groups of a free name inside a group, whose "what" group is
      free too, are created empty. */
  lemma GroupsFresh(c: Container, parent: Path, index: nat)
    requires IsGroup(c, parent) && Product.DatasetPath(parent, index) !in c.objects
    requires Product.DatasetPath(parent, index) + [Codes.What] !in c.objects
    ensures Groups(c, parent, index)
            == Success((Layout(c, Product.DatasetPath(parent, index), map[]),
                        Node.Node(Product.DatasetPath(parent, index), true, false, false, 0)))
  {
    var p := Product.DatasetPath(parent, index);
    assert |p + [Codes.What]| != |p|;
  }

  /** In a well-formed container the "what" group of a free path is free. */
  lemma WhatFree(c: Container, p: Path)
    requires WellFormed(c) && p !in c.objects
    ensures p + [Codes.What] !in c.objects
  {
    var w := p + [Codes.What];
    assert w[..|p|] == p;
    NoDescendants(c, p, w);
  }

  /** Building under a free name inside a group, whose "what" group is free
      too, with distinct attribute names succeeds and adds exactly the two
      groups. */
  lemma BuildFresh(c: Container, parent: Path, index: nat, levels: nat, what: seq<(string, AttrValue)>)
    requires IsGroup(c, parent) && Product.DatasetPath(parent, index) !in c.objects
    requires Product.DatasetPath(parent, index) + [Codes.What] !in c.objects
    requires Attributes.DistinctNames(what)
    ensures Build(c, parent, index, levels, what)
            == Success((Layout(c, Product.DatasetPath(parent, index), Attributes.EntryMap(what)),
                        NewProfile(parent, index, levels)))
  {
    var p := Product.DatasetPath(parent, index);
    var g := Object(GroupKind, map[]);
    GroupsFresh(c, parent, index);
    FillWhat(Layout(c, p, map[]), p, what);
    UpdateTwice(c.objects[p := g], p + [Codes.What], g, Object(GroupKind, Attributes.EntryMap(what)));
  }

  /** Writing distinct names into an empty "what" group leaves it holding
      exactly those attributes. */
  lemma FillWhat(c: Container, p: Path, what: seq<(string, AttrValue)>)
    requires p + [Codes.What] in c.objects && c.objects[p + [Codes.What]] == Object(GroupKind, map[])
    requires Attributes.DistinctNames(what)
    ensures Attributes.NewEach(c, p + [Codes.What], what)
            == Success(Container(c.objects[p + [Codes.What] := Object(GroupKind, Attributes.EntryMap(what))]))
  {
    Attributes.NewEachFresh(c, p + [Codes.What], what);
    assert map[] + Attributes.EntryMap(what) == Attributes.EntryMap(what);
  }

  /** What creating a profile under a free name inside a group yields. */
  lemma CreateResult(c: Container, parent: Path, index: nat, levels: nat, startTime: int, endTime: int)
    requires WellFormed(c) && IsGroup(c, parent) && Product.DatasetPath(parent, index) !in c.objects
    ensures Create(c, parent, index, levels, startTime, endTime)
            == Success((Created(c, parent, index, startTime, endTime), NewProfile(parent, index, levels)))
  {
    Product.StampedDistinct(Codes.ProdVerticalProfile, startTime, endTime);
    WhatFree(c, Product.DatasetPath(parent, index));
    BuildFresh(c, parent, index, levels, WhatEntries(startTime, endTime));
  }

  /** The parent of every object of a layout over a well-formed container is
      a group. */
  lemma LayoutKeepsWellFormed(c: Container, p: Path, a: map<string, AttrValue>)
    requires WellFormed(c) && |p| > 0 && IsGroup(c, p[..|p| - 1]) && p !in c.objects
    ensures WellFormed(Layout(c, p, a))
  {
    var up, g := p[..|p| - 1], Object(GroupKind, map[]);
    assert up + [p[|p| - 1]] == p;
    WhatFree(c, p);
    AddKeepsWellFormed(c, up, p[|p| - 1], g);
    var c1 := Container(c.objects[p := g]);
    AddKeepsWellFormed(c1, p, Codes.What, Object(GroupKind, a));
  }

  /** Creating a profile keeps every object inside a group. */
  lemma CreateKeepsWellFormed(c: Container, parent: Path, index: nat, startTime: int, endTime: int)
    requires WellFormed(c) && IsGroup(c, parent) && Product.DatasetPath(parent, index) !in c.objects
    ensures WellFormed(Created(c, parent, index, startTime, endTime))
  {
    var p := Product.DatasetPath(parent, index);
    assert p[..|p| - 1] == parent;
    LayoutKeepsWellFormed(c, p, Attributes.EntryMap(WhatEntries(startTime, endTime)));
  }

  // ----------------------------------------------------------------- opening

  /** Opens profile `index` inside `parent` with `levels` height levels: the
      product tag in "what" must be VP, and the layers are found by
      probing. */
  function Open(c: Container, parent: Path, index: nat, levels: nat): (r: Result<Profile>)
    ensures r.Success? ==> var p := Product.DatasetPath(parent, index);
              && Node.OpenAt(c, p) == Success(r.value.node)
              && r.value.node.what && r.value.levels == levels
              && Attributes.GetProduct(c, p + [Codes.What], Codes.AtnProduct) == Success(Codes.ProdVerticalProfile)
              && Product.OpenLayers(c, p) == Success(r.value.infos)
    ensures var p := Product.DatasetPath(parent, index);
            && Node.OpenAt(c, p).Success? && Node.OpenAt(c, p).value.what
            && Attributes.GetProduct(c, p + [Codes.What], Codes.AtnProduct).Success?
            && Attributes.GetProduct(c, p + [Codes.What], Codes.AtnProduct).value != Codes.ProdVerticalProfile
            ==> r == Failure(ProductMismatch)
    ensures Node.OpenAt(c, Product.DatasetPath(parent, index)).Failure? ==> r == Failure(OpenFailure)
  {
    var n :- Node.OpenIndexed(c, parent, Codes.DatasetPrefix, index);
    var w :- Node.WhatGroup(n);
    var product :- Attributes.GetProduct(c, w, Codes.AtnProduct);
    if product != Codes.ProdVerticalProfile then Failure(ProductMismatch)
    else
      var infos :- Product.OpenLayers(c, n.path);
      Success(Profile(n, levels, infos))
  }

  // --------------------------------------------------------------- accessors

  /** The instant the profile started, from the date and time texts in "what". */
  function StartTime(c: Container, pr: Profile): Result<int>
  {
    var w :- Node.WhatGroup(pr.node);
    Attributes.GetTime(c, w, Codes.AtnStartDate, Codes.AtnStartTime)
  }

  /** The instant the profile ended. */
  function EndTime(c: Container, pr: Profile): Result<int>
  {
    var w :- Node.WhatGroup(pr.node);
    Attributes.GetTime(c, w, Codes.AtnEndDate, Codes.AtnEndTime)
  }

  /** The number of layers: every data layer and every quality layer. */
  function LayerCount(pr: Profile): (r: nat)
    ensures r == LayerIndex.CountPart(pr.infos, false) + LayerIndex.CountPart(pr.infos, true)
  {
    LayerIndex.PartsCover(pr.infos);
    |pr.infos|
  }

  // ------------------------------------------------------------------ layers

  /** A rank-one layer has as many elements as its one extent. */
  lemma ExtentOfOne(a: nat)
    ensures Extent([a]) == a
  {
    assert [a][..0] == [];
  }

  /** Opens the `i`th layer: its family, number and quantity are those the
      list records, and it holds one value per level. */
  function Layer(c: Container, pr: Profile, i: nat): (r: Result<DataLayer.Layer>)
    requires i < |pr.infos|
    ensures r.Success? ==> && r.value.isQuality == pr.infos[i].isQuality
                           && r.value.quantity == pr.infos[i].quantity
                           && r.value.size == pr.levels
                           && Node.OpenIndexed(c, pr.node.path, DataLayer.Prefix(pr.infos[i].isQuality), pr.infos[i].index)
                              == Success(r.value.node)
  {
    ExtentOfOne(pr.levels);
    Product.LayerAt(c, pr.node.path, pr.infos, i, pr.Dims())
  }

  /** Opens the first layer holding `quantity`; none, and no error, when no
      layer holds it. */
  function LayerByQuantity(c: Container, pr: Profile, quantity: string): (r: Result<Option<DataLayer.Layer>>)
    ensures (forall j :: 0 <= j < |pr.infos| ==> pr.infos[j].quantity != quantity) ==> r == Success(None)
    ensures forall i :: 0 <= i < |pr.infos| && pr.infos[i].quantity == quantity
                        && (forall j :: 0 <= j < i ==> pr.infos[j].quantity != quantity) ==>
              match Layer(c, pr, i)
              case Success(l) => r == Success(Some(l))
              case Failure(e) => r == Failure(e)
  {
    LayerIndex.FindFirst(pr.infos, quantity);
    Product.LayerOf(c, pr.node.path, pr.infos, quantity, pr.Dims())
  }

  /** Adds a data or quality layer, numbered one past the last of its
      family, holding one value per level. The list grows by this one layer
      only when it was created. */
  function AddLayer(c: Container, pr: Profile, quantity: string, isQuality: bool, floating: bool)
    : (r: Result<(Container, Profile, DataLayer.Layer)>)
    ensures r.Success? ==> r.value.1 == pr.(infos := pr.infos + [LayerIndex.LayerInfo(isQuality, LayerIndex.NextOf(pr.infos, isQuality), quantity)])
    ensures r.Success? ==> r.value.2.size == pr.levels
                           && r.value.2.quantity == quantity && r.value.2.isQuality == isQuality
                           && r.value.2.floating == floating
    ensures r.Failure? <==> DataLayer.Create(c, pr.node.path, floating, isQuality, LayerIndex.NextOf(pr.infos, isQuality),
                                             quantity, pr.Dims()).Failure?
  {
    ExtentOfOne(pr.levels);
    var added :- Product.AddLayer(c, pr.node.path, pr.infos, pr.Dims(), quantity, isQuality, floating);
    Success((added.0, pr.(infos := added.1), added.2))
  }

  // ------------------------------------------------------------- round trips

  /** A layout's group opens with its "what" group and neither "where" nor
      "how". */
  lemma LayoutNode(c: Container, parent: Path, index: nat, a: map<string, AttrValue>)
    requires WellFormed(c) && IsGroup(c, parent) && Product.DatasetPath(parent, index) !in c.objects
    ensures Node.OpenIndexed(Layout(c, Product.DatasetPath(parent, index), a), parent, Codes.DatasetPrefix, index)
            == Success(Node.Node(Product.DatasetPath(parent, index), true, false, false, 0))
  {
    var p := Product.DatasetPath(parent, index);
    var g, h := p + [Codes.Where], p + [Codes.How];
    assert g[..|p|] == p && h[..|p|] == p;
    NoDescendants(c, p, g);
    NoDescendants(c, p, h);
    assert g != p + [Codes.What] && h != p + [Codes.What] by {
      assert g[|p|] != (p + [Codes.What])[|p|] && h[|p|] != (p + [Codes.What])[|p|];
    }
  }

  /** No member of either layer family exists in a layout over a
      well-formed container. */
  lemma LayoutHasNoMembers(c: Container, p: Path, a: map<string, AttrValue>, isQuality: bool, j: nat)
    requires WellFormed(c) && p !in c.objects
    ensures LayerIndex.Member(p, DataLayer.Prefix(isQuality), j) !in Layout(c, p, a).objects
  {
    var m := LayerIndex.Member(p, DataLayer.Prefix(isQuality), j);
    var name := Node.IndexedName(DataLayer.Prefix(isQuality), j);
    assert m[..|p|] == p;
    NoDescendants(c, p, m);
    assert name[0] == DataLayer.Prefix(isQuality)[0];
    assert m != p + [Codes.What] by { assert m[|p|] != Codes.What; }
  }

  /** No layer of either family opens in a layout over a well-formed
      container. */
  lemma LayoutHasNoLayers(c: Container, p: Path, a: map<string, AttrValue>)
    requires WellFormed(c) && p !in c.objects
    ensures Product.OpenLayers(Layout(c, p, a), p) == Success([])
  {
    LayoutHasNoMembers(c, p, a, false, 1);
    LayoutHasNoMembers(c, p, a, true, 1);
  }

  /** A layout over a well-formed container is consistent with an empty
      layer list. */
  lemma LayoutConsistent(c: Container, p: Path, a: map<string, AttrValue>)
    requires WellFormed(c) && p !in c.objects
    ensures Product.Consistent(Layout(c, p, a), p, [])
  {
    forall isQuality: bool, j: nat | j > 0
      ensures LayerIndex.Member(p, DataLayer.Prefix(isQuality), j) !in Layout(c, p, a).objects
    {
      LayoutHasNoMembers(c, p, a, isQuality, j);
    }
  }

  /** The "what" group of a layout holds exactly the attributes given. */
  lemma LayoutMetadata(c: Container, p: Path, a: map<string, AttrValue>)
    ensures p + [Codes.What] in Layout(c, p, a).objects && Layout(c, p, a).objects[p + [Codes.What]].attrs == a
  {
  }

  /** A profile just created opens, with the same number of levels, as the
      profile its creation returned: same group, no layers. */
  lemma OpenAfterCreate(c: Container, parent: Path, index: nat, levels: nat, startTime: int, endTime: int)
    requires WellFormed(c) && IsGroup(c, parent) && Product.DatasetPath(parent, index) !in c.objects
    ensures Create(c, parent, index, levels, startTime, endTime).Success?
    ensures var (c2, pr) := Create(c, parent, index, levels, startTime, endTime).value;
            Open(c2, parent, index, levels) == Success(pr)
  {
    var p := Product.DatasetPath(parent, index);
    var a := Attributes.EntryMap(WhatEntries(startTime, endTime));
    CreateResult(c, parent, index, levels, startTime, endTime);
    LayoutNode(c, parent, index, a);
    LayoutMetadata(c, p, a);
    Product.ReadStampedProduct(Layout(c, p, a), p + [Codes.What], Codes.ProdVerticalProfile, startTime, endTime);
    LayoutHasNoLayers(c, p, a);
    OpenFrom(Layout(c, p, a), parent, index, levels, NewProfile(parent, index, levels).node, []);
  }

  /** Open yields the profile its steps read. */
  lemma OpenFrom(c: Container, parent: Path, index: nat, levels: nat, n: Node.Node, infos: seq<LayerIndex.LayerInfo>)
    requires Node.OpenIndexed(c, parent, Codes.DatasetPrefix, index) == Success(n) && n.what
    requires Attributes.GetProduct(c, n.WhatPath(), Codes.AtnProduct) == Success(Codes.ProdVerticalProfile)
    requires Product.OpenLayers(c, n.path) == Success(infos)
    ensures Open(c, parent, index, levels) == Success(Profile(n, levels, infos))
  {
  }

  /** The start and end instants a profile was created with read back, for
      years that print in four digits. */
  lemma TimesAfterCreate(c: Container, parent: Path, index: nat, levels: nat, startTime: int, endTime: int)
    requires WellFormed(c) && IsGroup(c, parent) && Product.DatasetPath(parent, index) !in c.objects
    requires 0 <= Timestamp.YearOf(startTime) <= 9999 && 0 <= Timestamp.YearOf(endTime) <= 9999
    ensures Create(c, parent, index, levels, startTime, endTime).Success?
    ensures var (c2, pr) := Create(c, parent, index, levels, startTime, endTime).value;
            StartTime(c2, pr) == Success(startTime) && EndTime(c2, pr) == Success(endTime)
  {
    var p := Product.DatasetPath(parent, index);
    var a := Attributes.EntryMap(WhatEntries(startTime, endTime));
    CreateResult(c, parent, index, levels, startTime, endTime);
    LayoutMetadata(c, p, a);
    Product.ReadStampedTimes(Layout(c, p, a), p + [Codes.What], Codes.ProdVerticalProfile, startTime, endTime);
  }

  /** A new profile is well formed and its (empty) layer list is consistent
      with the container, so layers can be added to it. */
  lemma CreatedIsConsistent(c: Container, parent: Path, index: nat, levels: nat, startTime: int, endTime: int)
    requires WellFormed(c) && IsGroup(c, parent) && Product.DatasetPath(parent, index) !in c.objects
    ensures Create(c, parent, index, levels, startTime, endTime).Success?
    ensures var (c2, pr) := Create(c, parent, index, levels, startTime, endTime).value;
            WellFormed(c2) && Product.Consistent(c2, pr.node.path, pr.infos)
  {
    CreateResult(c, parent, index, levels, startTime, endTime);
    CreateKeepsWellFormed(c, parent, index, startTime, endTime);
    LayoutConsistent(c, Product.DatasetPath(parent, index), Attributes.EntryMap(WhatEntries(startTime, endTime)));
  }

  /** Adding a layer to a consistent profile succeeds and keeps it
      consistent; the new layer is numbered one past the count of its
      family. */
  lemma AddLayerKeepsConsistent(c: Container, pr: Profile, quantity: string, isQuality: bool, floating: bool)
    requires WellFormed(c) && Product.Consistent(c, pr.node.path, pr.infos)
    ensures AddLayer(c, pr, quantity, isQuality, floating).Success?
    ensures var (c2, pr2, _) := AddLayer(c, pr, quantity, isQuality, floating).value;
            && WellFormed(c2) && Product.Consistent(c2, pr2.node.path, pr2.infos)
            && pr2.infos[|pr.infos|].index == LayerIndex.CountPart(pr.infos, isQuality) + 1
            && LayerCount(pr2) == LayerCount(pr) + 1
  {
    Product.AddLayerKeepsConsistent(c, pr.node.path, pr.infos, pr.Dims(), quantity, isQuality, floating);
    LayerIndex.NextIsCountPlusOne(pr.infos, isQuality, quantity);
  }
}

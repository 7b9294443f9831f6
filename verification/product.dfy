/** What scans and vertical profiles share: a "datasetN" group whose data
    and quality layers all have the same extents, found by probing when the
    product is opened and numbered on from the last of their family when one
    is added. */
module Product {
  import opened Outcomes
  import opened Store
  import Codes
  import Attributes
  import Timestamp
  import Node
  import DataLayer
  import opened LayerIndex

  /** The path of product `index` inside `parent`: its "datasetN" group. */
  function DatasetPath(parent: Path, index: nat): Path
  {
    parent + [Node.IndexedName(Codes.DatasetPrefix, index)]
  }

  /** The data layers, then the quality layers, of the product at `p`. */
  function OpenLayers(c: Container, p: Path): (r: Result<seq<LayerInfo>>)
    ensures r.Success? ==> Contiguous(r.value)
    ensures r.Success? ==> forall isQuality: bool ::
              Member(p, DataLayer.Prefix(isQuality), CountPart(r.value, isQuality) + 1) !in c.objects
  {
    var data :- Series(c, p, Codes.DataPrefix, false, 1);
    var quality :- Series(c, p, Codes.QualityPrefix, true, 1);
    JoinContiguous(data, quality);
    Success(data + quality)
  }

  /** The layers recorded in `infos` are numbered contiguously, and no
      member of either family past its count exists in the container. */
  ghost predicate Consistent(c: Container, p: Path, infos: seq<LayerInfo>)
  {
    && IsGroup(c, p)
    && Contiguous(infos)
    && forall isQuality: bool, j: nat :: j > CountPart(infos, isQuality) ==> Member(p, DataLayer.Prefix(isQuality), j) !in c.objects
  }

  /** Opens the `i`th layer of the list. */
  function LayerAt(c: Container, p: Path, infos: seq<LayerInfo>, i: nat, dims: seq<nat>): (r: Result<DataLayer.Layer>)
    requires i < |infos|
    ensures r.Success? ==> Node.OpenIndexed(c, p, DataLayer.Prefix(infos[i].isQuality), infos[i].index) == Success(r.value.node)
    ensures r.Success? ==> && r.value.isQuality == infos[i].isQuality && r.value.quantity == infos[i].quantity
                           && r.value.size == Extent(dims)
    ensures Member(p, DataLayer.Prefix(infos[i].isQuality), infos[i].index) !in c.objects ==> r.Failure?
  {
    DataLayer.Open(c, p, infos[i].isQuality, infos[i].index, infos[i].quantity, dims)
  }

  /** Opens the first layer holding `quantity`; none when there is none. */
  function LayerOf(c: Container, p: Path, infos: seq<LayerInfo>, quantity: string, dims: seq<nat>)
    : (r: Result<Option<DataLayer.Layer>>)
    ensures Find(infos, quantity).None? ==> r == Success(None)
    ensures Find(infos, quantity).Some? ==>
              match LayerAt(c, p, infos, Find(infos, quantity).value, dims)
              case Success(l) => r == Success(Some(l))
              case Failure(e) => r == Failure(e)
  {
    match Find(infos, quantity)
    case None => Success(None)
    case Some(i) =>
      var l :- LayerAt(c, p, infos, i, dims);
      Success(Some(l))
  }

  /** Adds a layer numbered one past the last of its family. The list grows
      only when the layer was created. */
  function AddLayer(c: Container, p: Path, infos: seq<LayerInfo>, dims: seq<nat>,
                    quantity: string, isQuality: bool, floating: bool)
    : (r: Result<(Container, seq<LayerInfo>, DataLayer.Layer)>)
    ensures r.Success? ==> r.value.1 == infos + [LayerInfo(isQuality, NextOf(infos, isQuality), quantity)]
    ensures r.Success? ==> DataLayer.Create(c, p, floating, isQuality, NextOf(infos, isQuality), quantity, dims)
                           == Success((r.value.0, r.value.2))
    ensures r.Failure? ==> DataLayer.Create(c, p, floating, isQuality, NextOf(infos, isQuality), quantity, dims).Failure?
  {
    var index := NextOf(infos, isQuality);
    var created :- DataLayer.Create(c, p, floating, isQuality, index, quantity, dims);
    Success((created.0, infos + [LayerInfo(isQuality, index, quantity)], created.1))
  }

  /** Distinct families never share a member name. */
  lemma FamiliesDistinct(p: Path, i: nat, j: nat)
    ensures Member(p, Codes.DataPrefix, i) != Member(p, Codes.QualityPrefix, j)
  {
    var a, b := Node.IndexedName(Codes.DataPrefix, i), Node.IndexedName(Codes.QualityPrefix, j);
    assert a[..4] == Codes.DataPrefix && b[..7] == Codes.QualityPrefix;
    assert a[0] == a[..4][0] && b[0] == b[..7][0];
    assert Member(p, Codes.DataPrefix, i)[|p|] == a && Member(p, Codes.QualityPrefix, j)[|p|] == b;
  }

  /** Members differ unless they are the same member of the same family. */
  lemma MembersDiffer(p: Path, fam: bool, k: nat, isQuality: bool, index: nat)
    requires fam != isQuality || k != index
    ensures Member(p, DataLayer.Prefix(fam), k) != Member(p, DataLayer.Prefix(isQuality), index)
  {
    if fam == isQuality {
      Node.IndexedNameInjective(DataLayer.Prefix(fam), k, index);
      assert Member(p, DataLayer.Prefix(fam), k)[|p|] == Node.IndexedName(DataLayer.Prefix(fam), k);
      assert Member(p, DataLayer.Prefix(fam), index)[|p|] == Node.IndexedName(DataLayer.Prefix(fam), index);
    } else if isQuality {
      FamiliesDistinct(p, k, index);
    } else {
      FamiliesDistinct(p, index, k);
    }
  }

  /** One more layer of family `isQuality` raises its count by one and
      leaves the other family's count alone. */
  lemma CountAfterAdd(infos: seq<LayerInfo>, info: LayerInfo, fam: bool)
    ensures CountPart(infos + [info], fam) == CountPart(infos, fam) + (if info.isQuality == fam then 1 else 0)
  {
    assert (infos + [info])[..|infos|] == infos;
  }

  /** Creating layer `index` of family `isQuality` leaves every other free
      member free. */
  lemma MemberStaysFree(c: Container, p: Path, dims: seq<nat>, quantity: string, isQuality: bool,
                        floating: bool, index: nat, fam: bool, j: nat)
    requires WellFormed(c) && IsGroup(c, p)
    requires Member(p, DataLayer.Prefix(isQuality), index) !in c.objects
    requires Member(p, DataLayer.Prefix(fam), j) !in c.objects && (fam != isQuality || j != index)
    ensures DataLayer.Create(c, p, floating, isQuality, index, quantity, dims).Success?
    ensures Member(p, DataLayer.Prefix(fam), j) !in DataLayer.Create(c, p, floating, isQuality, index, quantity, dims).value.0.objects
  {
    var m := Member(p, DataLayer.Prefix(fam), j);
    var q := Member(p, DataLayer.Prefix(isQuality), index);
    MembersDiffer(p, fam, j, isQuality, index);
    assert m !in {q, q + [Codes.What], q + [Codes.DatData]};
    DataLayer.CreateLeavesOthers(c, p, floating, isQuality, index, quantity, dims, m);
  }

  /** A consistent list leaves every member past the count of its family
      free. */
  lemma ConsistentFree(c: Container, p: Path, infos: seq<LayerInfo>, fam: bool, j: nat)
    requires Consistent(c, p, infos) && j > CountPart(infos, fam)
    ensures Member(p, DataLayer.Prefix(fam), j) !in c.objects
  {
  }

  /** In a well-formed container where the list is consistent, adding a
      layer always succeeds, and the list stays consistent with the grown
      container. */
  lemma AddLayerKeepsConsistent(c: Container, p: Path, infos: seq<LayerInfo>, dims: seq<nat>,
                                quantity: string, isQuality: bool, floating: bool)
    requires WellFormed(c) && Consistent(c, p, infos)
    ensures AddLayer(c, p, infos, dims, quantity, isQuality, floating).Success?
    ensures var r := AddLayer(c, p, infos, dims, quantity, isQuality, floating).value;
            WellFormed(r.0) && Consistent(r.0, p, r.1)
  {
    var index := NextOf(infos, isQuality);
    var info := LayerInfo(isQuality, index, quantity);
    NextIsCountPlusOne(infos, isQuality, quantity);
    ConsistentFree(c, p, infos, isQuality, index);
    DataLayer.CreateKeepsWellFormed(c, p, floating, isQuality, index, quantity, dims);
    var r := AddLayer(c, p, infos, dims, quantity, isQuality, floating).value;
    DataLayer.CreateLeavesOthers(c, p, floating, isQuality, index, quantity, dims, p);
    assert |p| < |r.2.node.path|;
    forall fam: bool, j: nat | j > CountPart(r.1, fam)
      ensures Member(p, DataLayer.Prefix(fam), j) !in r.0.objects
    {
      CountAfterAdd(infos, info, fam);
      ConsistentFree(c, p, infos, fam, j);
      MemberStaysFree(c, p, dims, quantity, isQuality, floating, index, fam, j);
    }
  }

  // ------------------------------------------------------ the "what" group

  /** The attributes of a "what" group, in the order a new scan or profile
      creates them: the product tag, then the start and end instants, each as a date
      text and a time text. */
  function WhatOf(product: string, startDate: string, startTime: string, endDate: string, endTime: string)
    : seq<(string, AttrValue)>
  {
    [(Codes.AtnProduct, Str(product)),
     (Codes.AtnStartDate, Str(startDate)), (Codes.AtnStartTime, Str(startTime)),
     (Codes.AtnEndDate, Str(endDate)), (Codes.AtnEndTime, Str(endTime))]
  }

  lemma WhatNamesDistinct(product: string, startDate: string, startTime: string, endDate: string, endTime: string)
    ensures Attributes.DistinctNames(WhatOf(product, startDate, startTime, endDate, endTime))
  {
  }

  /** A "what" group holding exactly these attributes reads each back. */
  lemma WhatReads(c: Container, w: Path, product: string, startDate: string, startTime: string,
                  endDate: string, endTime: string)
    requires w in c.objects && c.objects[w].attrs == Attributes.EntryMap(WhatOf(product, startDate, startTime, endDate, endTime))
    ensures Attributes.DistinctNames(WhatOf(product, startDate, startTime, endDate, endTime))
    ensures ReadAttr(c, w, Codes.AtnProduct) == Success(Str(product))
    ensures ReadAttr(c, w, Codes.AtnStartDate) == Success(Str(startDate))
    ensures ReadAttr(c, w, Codes.AtnStartTime) == Success(Str(startTime))
    ensures ReadAttr(c, w, Codes.AtnEndDate) == Success(Str(endDate))
    ensures ReadAttr(c, w, Codes.AtnEndTime) == Success(Str(endTime))
  {
    var e := WhatOf(product, startDate, startTime, endDate, endTime);
    WhatNamesDistinct(product, startDate, startTime, endDate, endTime);
    Attributes.ReadEntry(c, w, e, 0);
    Attributes.ReadEntry(c, w, e, 1);
    Attributes.ReadEntry(c, w, e, 2);
    Attributes.ReadEntry(c, w, e, 3);
    Attributes.ReadEntry(c, w, e, 4);
  }

  /** The "what" attributes of a new product of type `product` observed
      from `startTime` to `endTime` (seconds since the Epoch). */
  function Stamped(product: Codes.ProductType, startTime: int, endTime: int): seq<(string, AttrValue)>
    requires product != Codes.ProdUnknown
  {
    var t0, t1 := Timestamp.Encode(startTime), Timestamp.Encode(endTime);
    WhatOf(Codes.ProductCode(product).value, t0.0, t0.1, t1.0, t1.1)
  }

  lemma StampedDistinct(product: Codes.ProductType, startTime: int, endTime: int)
    requires product != Codes.ProdUnknown
    ensures Attributes.DistinctNames(Stamped(product, startTime, endTime))
  {
    var t0, t1 := Timestamp.Encode(startTime), Timestamp.Encode(endTime);
    WhatNamesDistinct(Codes.ProductCode(product).value, t0.0, t0.1, t1.0, t1.1);
  }

  /** A "what" group holding a product's stamp reads back its type. */
  lemma ReadStampedProduct(c: Container, w: Path, product: Codes.ProductType, startTime: int, endTime: int)
    requires product != Codes.ProdUnknown
    requires w in c.objects && c.objects[w].attrs == Attributes.EntryMap(Stamped(product, startTime, endTime))
    ensures Attributes.GetProduct(c, w, Codes.AtnProduct) == Success(product)
  {
    var t0, t1 := Timestamp.Encode(startTime), Timestamp.Encode(endTime);
    WhatReads(c, w, Codes.ProductCode(product).value, t0.0, t0.1, t1.0, t1.1);
    Codes.ProductOfCode(product);
  }

  /** A "what" group holding a product's stamp reads back both instants
      when their years print in four digits. */
  lemma ReadStampedTimes(c: Container, w: Path, product: Codes.ProductType, startTime: int, endTime: int)
    requires product != Codes.ProdUnknown
    requires w in c.objects && c.objects[w].attrs == Attributes.EntryMap(Stamped(product, startTime, endTime))
    requires 0 <= Timestamp.YearOf(startTime) <= 9999 && 0 <= Timestamp.YearOf(endTime) <= 9999
    ensures Attributes.GetTime(c, w, Codes.AtnStartDate, Codes.AtnStartTime) == Success(startTime)
    ensures Attributes.GetTime(c, w, Codes.AtnEndDate, Codes.AtnEndTime) == Success(endTime)
  {
    var t0, t1 := Timestamp.Encode(startTime), Timestamp.Encode(endTime);
    WhatReads(c, w, Codes.ProductCode(product).value, t0.0, t0.1, t1.0, t1.1);
    Timestamp.DecodeEncode(startTime);
    Timestamp.DecodeEncode(endTime);
  }
}

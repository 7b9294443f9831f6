/** The bookkeeping a product keeps about its layers: which "dataN" and
    "qualityN" groups exist and what quantity each holds, discovered when the
    product is opened and extended as layers are added. */
module LayerIndex {
  import opened Outcomes
  import opened Store
  import Codes
  import Attributes
  import Node

  /** One layer: its family, its number within the family and its quantity. */
  datatype LayerInfo = LayerInfo(isQuality: bool, index: nat, quantity: string)

  /** The path of member `k` of family `prefix` inside `p`. */
  function Member(p: Path, prefix: string, k: nat): Path
  {
    p + [Node.IndexedName(prefix, k)]
  }

  /** The members of the family numbered `k` or above that exist. */
  ghost function Remaining(c: Container, p: Path, prefix: string, k: nat): set<Path>
  {
    set q | q in c.objects.Keys && exists j: nat :: j >= k && q == Member(p, prefix, j)
  }

  lemma RemainingShrinks(c: Container, p: Path, prefix: string, k: nat)
    requires Member(p, prefix, k) in c.objects
    ensures |Remaining(c, p, prefix, k + 1)| < |Remaining(c, p, prefix, k)|
  {
    var q := Member(p, prefix, k);
    var later, now := Remaining(c, p, prefix, k + 1), Remaining(c, p, prefix, k);
    assert q in now;
    if q in later {
      var j: nat :| j >= k + 1 && q == Member(p, prefix, j);
      assert Node.IndexedName(prefix, j) == q[|p|];
      Node.IndexedNameInjective(prefix, j, k);
    }
    assert later <= now - {q};
    SubsetSize(later, now - {q});
  }

  lemma {:induction false} SubsetSize<T>(a: set<T>, b: set<T>)
    requires a <= b
    ensures |a| <= |b|
    decreases a
  {
    if a != {} {
      var x :| x in a;
      SubsetSize(a - {x}, b - {x});
    }
  }

  /** The layer at `q`, which must be a group with a "what" group holding
      its quantity. */
  function Inspect(c: Container, q: Path, isQuality: bool, k: nat): (r: Result<LayerInfo>)
    ensures r.Success? <==> IsGroup(c, q) && IsGroup(c, q + [Codes.What])
                            && Attributes.GetString(c, q + [Codes.What], Codes.AtnQuantity).Success?
    ensures r.Success? ==> r.value == LayerInfo(isQuality, k, Attributes.GetString(c, q + [Codes.What], Codes.AtnQuantity).value)
  {
    if !IsGroup(c, q) || !IsGroup(c, q + [Codes.What]) then Failure(OpenFailure)
    else
      var quantity :- Attributes.GetString(c, q + [Codes.What], Codes.AtnQuantity);
      Success(LayerInfo(isQuality, k, quantity))
  }

  /** Probes members `k`, `k + 1`, ... of family `prefix` inside `p` until one
      is missing, recording each one found. */
  function Series(c: Container, p: Path, prefix: string, isQuality: bool, k: nat): (r: Result<seq<LayerInfo>>)
    ensures r.Success? ==> Member(p, prefix, k + |r.value|) !in c.objects
    ensures r.Success? ==> forall i :: 0 <= i < |r.value| ==> r.value[i].isQuality == isQuality && r.value[i].index == k + i
    ensures r.Success? ==> forall i :: k <= i < k + |r.value| ==>
              && Member(p, prefix, i) in c.objects
              && Inspect(c, Member(p, prefix, i), isQuality, i) == Success(r.value[i - k])
    ensures r.Failure? ==> exists i: nat :: i >= k && Member(p, prefix, i) in c.objects
                                           && Inspect(c, Member(p, prefix, i), isQuality, i).Failure?
    decreases |Remaining(c, p, prefix, k)|
  {
    var q := Member(p, prefix, k);
    if q !in c.objects then Success([])
    else
      match Inspect(c, q, isQuality, k)
      case Failure(e) => Failure(e)
      case Success(info) =>
        RemainingShrinks(c, p, prefix, k);
        match Series(c, p, prefix, isQuality, k + 1)
        case Failure(e) => Failure(e)
        case Success(rest) =>
          SeriesStep(c, p, prefix, isQuality, k, info, rest);
          Success([info] + rest)
  }

  /** One member found in front of the rest of its series makes a series
      from one index lower. */
  lemma SeriesStep(c: Container, p: Path, prefix: string, isQuality: bool, k: nat, info: LayerInfo, rest: seq<LayerInfo>)
    requires Member(p, prefix, k) in c.objects && Inspect(c, Member(p, prefix, k), isQuality, k) == Success(info)
    requires Member(p, prefix, k + 1 + |rest|) !in c.objects
    requires forall i :: 0 <= i < |rest| ==> rest[i].isQuality == isQuality && rest[i].index == k + 1 + i
    requires forall i :: k + 1 <= i < k + 1 + |rest| ==>
               && Member(p, prefix, i) in c.objects
               && Inspect(c, Member(p, prefix, i), isQuality, i) == Success(rest[i - (k + 1)])
    ensures forall i :: 0 <= i < |[info] + rest| ==> ([info] + rest)[i].isQuality == isQuality && ([info] + rest)[i].index == k + i
    ensures forall i :: k <= i < k + |[info] + rest| ==>
              && Member(p, prefix, i) in c.objects
              && Inspect(c, Member(p, prefix, i), isQuality, i) == Success(([info] + rest)[i - k])
    ensures Member(p, prefix, k + |[info] + rest|) !in c.objects
  {
  }

  /** The number of layers of one family. */
  function CountPart(infos: seq<LayerInfo>, isQuality: bool): nat
  {
    if |infos| == 0 then 0
    else CountPart(infos[..|infos| - 1], isQuality) + (if infos[|infos| - 1].isQuality == isQuality then 1 else 0)
  }

  /** Every layer belongs to exactly one of the two families. */
  lemma {:induction false} PartsCover(infos: seq<LayerInfo>)
    ensures CountPart(infos, false) + CountPart(infos, true) == |infos|
  {
    if |infos| > 0 {
      PartsCover(infos[..|infos| - 1]);
    }
  }

  /** Each family is numbered 1, 2, 3, ... in the order its layers appear. */
  predicate Contiguous(infos: seq<LayerInfo>)
  {
    forall i :: 0 <= i < |infos| ==> infos[i].index == CountPart(infos[..i], infos[i].isQuality) + 1
  }

  /** The number of the last layer of a family, the reference for NextIndex. */
  function LastIndex(infos: seq<LayerInfo>, isQuality: bool): Option<nat>
  {
    if |infos| == 0 then None
    else if infos[|infos| - 1].isQuality == isQuality then Some(infos[|infos| - 1].index)
    else LastIndex(infos[..|infos| - 1], isQuality)
  }

  /** The number a new layer of a family gets: one past the last layer of
      that family, searching from the end, or 1 when there is none. */
  method NextIndex(infos: seq<LayerInfo>, isQuality: bool) returns (index: nat)
    ensures index == match LastIndex(infos, isQuality) case None => 1 case Some(k) => k + 1
    ensures index >= 1
  {
    index := 1;
    var i := |infos|;
    assert infos[..i] == infos;
    while i > 0
      invariant 0 <= i <= |infos|
      invariant LastIndex(infos, isQuality) == LastIndex(infos[..i], isQuality)
    {
      if infos[i - 1].isQuality == isQuality {
        index := infos[i - 1].index + 1;
        assert infos[..i][..i - 1] == infos[..i - 1];
        return;
      }
      assert infos[..i][..i - 1] == infos[..i - 1];
      i := i - 1;
    }
  }

  /** The value NextIndex computes. */
  function NextOf(infos: seq<LayerInfo>, isQuality: bool): nat
  {
    match LastIndex(infos, isQuality) case None => 1 case Some(k) => k + 1
  }

  /** With contiguous numbering, the last layer of a family is its count. */
  lemma {:induction false} LastIsCount(infos: seq<LayerInfo>, isQuality: bool)
    requires Contiguous(infos)
    ensures LastIndex(infos, isQuality) == if CountPart(infos, isQuality) == 0 then None else Some(CountPart(infos, isQuality))
  {
    if |infos| > 0 {
      var init := infos[..|infos| - 1];
      assert Contiguous(init) by {
        forall i | 0 <= i < |init|
          ensures init[i].index == CountPart(init[..i], init[i].isQuality) + 1
        {
          assert init[..i] == infos[..i];
        }
      }
      LastIsCount(init, isQuality);
      assert infos[..|infos| - 1] == init;
    }
  }

  /** Appending a layer numbered one past the count of its family keeps the
      numbering contiguous and adds one to that family's count only. */
  lemma ContiguousSnoc(infos: seq<LayerInfo>, info: LayerInfo)
    requires Contiguous(infos) && info.index == CountPart(infos, info.isQuality) + 1
    ensures Contiguous(infos + [info])
    ensures forall q :: CountPart(infos + [info], q) == CountPart(infos, q) + (if info.isQuality == q then 1 else 0)
  {
    var grown := infos + [info];
    assert grown[..|grown| - 1] == infos;
    forall i | 0 <= i < |grown|
      ensures grown[i].index == CountPart(grown[..i], grown[i].isQuality) + 1
    {
      if i < |infos| {
        assert grown[..i] == infos[..i];
      }
    }
  }

  /** With contiguous numbering, a new layer is numbered one past the count
      of its family, and adding it keeps the numbering contiguous. */
  lemma NextIsCountPlusOne(infos: seq<LayerInfo>, isQuality: bool, quantity: string)
    requires Contiguous(infos)
    ensures NextOf(infos, isQuality) == CountPart(infos, isQuality) + 1
    ensures Contiguous(infos + [LayerInfo(isQuality, NextOf(infos, isQuality), quantity)])
  {
    LastIsCount(infos, isQuality);
    ContiguousSnoc(infos, LayerInfo(isQuality, NextOf(infos, isQuality), quantity));
  }

  /** A family found by probing from 1 is contiguous. */
  lemma {:induction false} SeriesContiguous(infos: seq<LayerInfo>, isQuality: bool)
    requires forall i :: 0 <= i < |infos| ==> infos[i].isQuality == isQuality && infos[i].index == 1 + i
    ensures Contiguous(infos)
    ensures CountPart(infos, isQuality) == |infos| && CountPart(infos, !isQuality) == 0
  {
    if |infos| > 0 {
      var init := infos[..|infos| - 1];
      SeriesContiguous(init, isQuality);
      assert init + [infos[|infos| - 1]] == infos;
      ContiguousSnoc(init, infos[|infos| - 1]);
    }
  }

  /** The data layers followed by the quality layers is contiguous. */
  lemma {:induction false} JoinContiguous(data: seq<LayerInfo>, quality: seq<LayerInfo>)
    requires forall i :: 0 <= i < |data| ==> !data[i].isQuality && data[i].index == 1 + i
    requires forall i :: 0 <= i < |quality| ==> quality[i].isQuality && quality[i].index == 1 + i
    ensures Contiguous(data + quality)
    ensures CountPart(data + quality, false) == |data| && CountPart(data + quality, true) == |quality|
    decreases |quality|
  {
    if |quality| == 0 {
      assert data + quality == data;
      SeriesContiguous(data, false);
    } else {
      var init := quality[..|quality| - 1];
      JoinContiguous(data, init);
      assert (data + init) + [quality[|quality| - 1]] == data + quality;
      ContiguousSnoc(data + init, quality[|quality| - 1]);
    }
  }

  /** The first layer holding `quantity`, if any. */
  function Find(infos: seq<LayerInfo>, quantity: string): (r: Option<nat>)
    ensures r.Some? ==> r.value < |infos| && infos[r.value].quantity == quantity
                        && forall j :: 0 <= j < r.value ==> infos[j].quantity != quantity
    ensures r.None? <==> forall j :: 0 <= j < |infos| ==> infos[j].quantity != quantity
  {
    if |infos| == 0 then None
    else if infos[0].quantity == quantity then Some(0)
    else match Find(infos[1..], quantity)
      case None => None
      case Some(i) => Some(i + 1)
  }

  /** The first layer holding `quantity` is the one Find finds. */
  lemma FindFirst(infos: seq<LayerInfo>, quantity: string)
    ensures forall i :: 0 <= i < |infos| && infos[i].quantity == quantity
                        && (forall j :: 0 <= j < i ==> infos[j].quantity != quantity)
                        ==> Find(infos, quantity) == Some(i)
  {
  }
}

/** The common part of every object of the product tree: its own group and
    the optional "what", "where" and "how" groups beneath it, which are opened
    with it when they exist and created on demand otherwise. */
module Node {
  import opened Outcomes
  import opened Store
  import Decimal
  import Codes
  import Attributes

  /** An open group. The flags record which of the three metadata groups are
      open; `attrCount` is the number of attributes the "how" group had when
      the node was opened. */
  datatype Node = Node(path: Path, what: bool, where: bool, how: bool, attrCount: nat)
  {
    function WhatPath(): Path { path + [Codes.What] }
    function WherePath(): Path { path + [Codes.Where] }
    function HowPath(): Path { path + [Codes.How] }
  }

  /** The name of the `index`th member of a numbered family, as "dataset3". */
  function IndexedName(prefix: string, index: nat): (r: string)
    ensures |r| > |prefix| && r[..|prefix|] == prefix
  {
    prefix + Decimal.NatDigits(index)
  }

  /** Distinct indices name distinct members of a family. */
  lemma IndexedNameInjective(prefix: string, i: nat, j: nat)
    ensures IndexedName(prefix, i) == IndexedName(prefix, j) ==> i == j
  {
    if IndexedName(prefix, i) == IndexedName(prefix, j) {
      assert Decimal.NatDigits(i) == IndexedName(prefix, i)[|prefix|..];
      assert Decimal.NatDigits(j) == IndexedName(prefix, j)[|prefix|..];
      Decimal.NatDigitsInjective(i, j);
    }
  }

  /** A node just created: its group is new and none of its metadata groups
      is open yet. */
  function Fresh(p: Path): Node
  {
    Node(p, false, false, false, 0)
  }

  /** Creates group `name` inside `parent`. */
  function CreateNamed(c: Container, parent: Path, name: string): (r: Result<(Container, Node)>)
    ensures r.Success? <==> IsGroup(c, parent) && parent + [name] !in c.objects
    ensures r.Success? ==> r.value.0.objects == c.objects[parent + [name] := Object(GroupKind, map[])]
    ensures r.Success? ==> r.value.1 == Fresh(parent + [name])
  {
    var c2 :- CreateGroup(c, parent, name);
    Success((c2, Fresh(parent + [name])))
  }

  /** Creates the `index`th member of a numbered family inside `parent`. */
  function CreateIndexed(c: Container, parent: Path, prefix: string, index: nat): (r: Result<(Container, Node)>)
  {
    CreateNamed(c, parent, IndexedName(prefix, index))
  }

  /** Opens the group at `p` with whichever metadata groups it has. */
  function OpenAt(c: Container, p: Path): (r: Result<Node>)
    ensures r.Success? <==> IsGroup(c, p)
    ensures r.Success? ==> r.value.path == p
    ensures r.Success? ==> (r.value.what <==> IsGroup(c, p + [Codes.What]))
                           && (r.value.where <==> IsGroup(c, p + [Codes.Where]))
                           && (r.value.how <==> IsGroup(c, p + [Codes.How]))
    ensures r.Success? && r.value.how ==> r.value.attrCount == |c.objects[p + [Codes.How]].attrs|
    ensures r.Success? && !r.value.how ==> r.value.attrCount == 0
  {
    if !IsGroup(c, p) then Failure(OpenFailure)
    else
      var how := IsGroup(c, p + [Codes.How]);
      Success(Node(p, IsGroup(c, p + [Codes.What]), IsGroup(c, p + [Codes.Where]), how,
                   if how then |c.objects[p + [Codes.How]].attrs| else 0))
  }

  function OpenNamed(c: Container, parent: Path, name: string): (r: Result<Node>)
  {
    OpenAt(c, parent + [name])
  }

  function OpenIndexed(c: Container, parent: Path, prefix: string, index: nat): (r: Result<Node>)
  {
    OpenAt(c, parent + [IndexedName(prefix, index)])
  }

  /** A group just created opens as a node with nothing beneath it. */
  lemma OpenCreated(c: Container, parent: Path, name: string)
    requires WellFormed(c) && CreateNamed(c, parent, name).Success?
    ensures OpenNamed(CreateNamed(c, parent, name).value.0, parent, name) == Success(CreateNamed(c, parent, name).value.1)
  {
    var c2 := CreateNamed(c, parent, name).value.0;
    var p := parent + [name];
    forall g | g in {Codes.What, Codes.Where, Codes.How}
      ensures p + [g] !in c2.objects
    {
      assert (p + [g])[..|p|] == p;
      NoDescendants(c, p, p + [g]);
    }
  }

  /** The node's "what" group, through which its attributes are read and
      written; a handle that was never opened refuses every access. */
  function WhatGroup(n: Node): (r: Result<Path>)
    ensures r.Success? <==> n.what
    ensures r.Success? ==> r.value == n.WhatPath()
  {
    if n.what then Success(n.WhatPath()) else Failure(OpenFailure)
  }

  /** The node's "where" group; a handle that was never opened refuses every
      access. */
  function WhereGroup(n: Node): (r: Result<Path>)
    ensures r.Success? <==> n.where
    ensures r.Success? ==> r.value == n.WherePath()
  {
    if n.where then Success(n.WherePath()) else Failure(OpenFailure)
  }

  /** Opens the "what" group by creating it when it is not open yet. */
  function CheckCreateWhat(c: Container, n: Node): (r: Result<(Container, Node)>)
    ensures n.what ==> r == Success((c, n))
    ensures !n.what ==> (r.Success? <==> IsGroup(c, n.path) && n.WhatPath() !in c.objects)
    ensures r.Success? ==> r.value.1 == n.(what := true)
    ensures r.Success? && !n.what ==> r.value.0.objects == c.objects[n.WhatPath() := Object(GroupKind, map[])]
  {
    if n.what then Success((c, n))
    else
      var c2 :- CreateGroup(c, n.path, Codes.What);
      Success((c2, n.(what := true)))
  }

  /** Opens the "where" group by creating it when it is not open yet. */
  function CheckCreateWhere(c: Container, n: Node): (r: Result<(Container, Node)>)
    ensures n.where ==> r == Success((c, n))
    ensures !n.where ==> (r.Success? <==> IsGroup(c, n.path) && n.WherePath() !in c.objects)
    ensures r.Success? ==> r.value.1 == n.(where := true)
    ensures r.Success? && !n.where ==> r.value.0.objects == c.objects[n.WherePath() := Object(GroupKind, map[])]
  {
    if n.where then Success((c, n))
    else
      var c2 :- CreateGroup(c, n.path, Codes.Where);
      Success((c2, n.(where := true)))
  }

  /** A handle on a named attribute of the "how" group: none, one to be
      created, or one that exists. */
  datatype AttrRef = NoAttribute | AttributeRef(holder: Path, name: string, create: bool)

  /** The attribute `name` of the node's "how" group. Without `create` a
      missing group or attribute yields no handle; with it, a missing group
      is created first and a missing attribute yields a handle that creates
      it. The node is returned because the "how" handle may have opened. */
  function Attribute(c: Container, n: Node, name: string, create: bool): (r: Result<(Container, Node, AttrRef)>)
    ensures !n.how && !create ==> r == Success((c, n, NoAttribute))
    ensures !n.how && create ==> (r.Success? <==> IsGroup(c, n.path) && n.HowPath() !in c.objects)
    ensures !n.how && create && r.Success?
            ==> r.value == (Container(c.objects[n.HowPath() := Object(GroupKind, map[])]), n.(how := true),
                            AttributeRef(n.HowPath(), name, true))
    ensures n.how ==> (r.Success? <==> n.HowPath() in c.objects)
    ensures n.how && r.Success? ==> r.value.0 == c && r.value.1 == n
    ensures n.how && r.Success? ==>
              r.value.2 == if name in c.objects[n.HowPath()].attrs then AttributeRef(n.HowPath(), name, false)
                           else if create then AttributeRef(n.HowPath(), name, true)
                           else NoAttribute
  {
    if !n.how then
      if create then
        var c2 :- CreateGroup(c, n.path, Codes.How);
        Success((c2, n.(how := true), AttributeRef(n.HowPath(), name, true)))
      else Success((c, n, NoAttribute))
    else
      var present :- AttrExists(c, n.HowPath(), name);
      if !present then
        if create then Success((c, n, AttributeRef(n.HowPath(), name, true))) else Success((c, n, NoAttribute))
      else Success((c, n, AttributeRef(n.HowPath(), name, false)))
  }

  /** The read-only lookup: a handle only on an attribute that exists. */
  function AttributeConst(c: Container, n: Node, name: string): (r: Result<AttrRef>)
    ensures r.Success? <==> !n.how || n.HowPath() in c.objects
    ensures r.Success? ==> (r.value.AttributeRef? <==> n.how && name in c.objects[n.HowPath()].attrs)
    ensures r.Success? && r.value.AttributeRef? ==> r.value == AttributeRef(n.HowPath(), name, false)
  {
    if !n.how then Success(NoAttribute)
    else
      var present :- AttrExists(c, n.HowPath(), name);
      if !present then Success(NoAttribute) else Success(AttributeRef(n.HowPath(), name, false))
  }

  /** The read-only lookup agrees with the lookup that does not create. */
  lemma AttributeConstAgrees(c: Container, n: Node, name: string)
    ensures AttributeConst(c, n, name).Success? <==> Attribute(c, n, name, false).Success?
    ensures AttributeConst(c, n, name).Success? ==>
              Attribute(c, n, name, false).value == (c, n, AttributeConst(c, n, name).value)
  {
  }

  /** Once an attribute has been written through the handle that creates it,
      looking it up again finds it. */
  lemma AttributeFoundAfterWrite(c: Container, n: Node, name: string, v: AttrValue)
    requires Attribute(c, n, name, true).Success?
    requires var (c1, n1, ref) := Attribute(c, n, name, true).value;
             ref.AttributeRef? && Attributes.Replace(c1, ref.holder, name, v).Success?
    ensures var (c1, n1, ref) := Attribute(c, n, name, true).value;
            var c2 := Attributes.Replace(c1, ref.holder, name, v).value;
            Attribute(c2, n1, name, false) == Success((c2, n1, AttributeRef(n1.HowPath(), name, false)))
  {
  }

  /** Sets an optional attribute of the "how" group of `n`, creating that
      group first when it is not open. */
  function SetHowAttr(c: Container, n: Node, name: string, v: AttrValue): (r: Result<(Container, Node)>)
    ensures r.Success? ==> r.value.1 == n.(how := true)
    ensures r.Success? ==> ReadAttr(r.value.0, n.HowPath(), name) == Success(v)
    ensures n.how ==> (r.Success? <==> n.HowPath() in c.objects)
    ensures !n.how ==> (r.Success? <==> IsGroup(c, n.path) && n.HowPath() !in c.objects)
  {
    var (c1, n1) :- if n.how then Success((c, n)) else
                     var c2 :- CreateGroup(c, n.path, Codes.How); Success((c2, n.(how := true)));
    var c3 :- Attributes.Replace(c1, n.HowPath(), name, v);
    Success((c3, n1))
  }
}

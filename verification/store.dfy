/** The container the library reads and writes, in place of an HDF5 file: a
    tree of named groups and datasets, addressed by path, where every object
    carries a map of named, typed attributes and every dataset one array. */
module Store {
  import opened Outcomes

  /** The names from the root down to an object; the root is the empty path. */
  type Path = seq<string>

  /** The type class of a stored attribute. */
  datatype TypeClass = StringClass | IntegerClass | FloatClass

  /** A stored attribute: a string, a 64-bit integer or a double, as a scalar
      or as a one-dimensional array. */
  datatype AttrValue =
    | Str(text: string)
    | Long(n: int)
    | Double(x: real)
    | LongArray(ns: seq<int>)
    | DoubleArray(xs: seq<real>)
  {
    function Class(): TypeClass
    {
      match this
      case Str(_) => StringClass
      case Long(_) | LongArray(_) => IntegerClass
      case Double(_) | DoubleArray(_) => FloatClass
    }

    /** The element size of a string type: its characters and the terminator. */
    function TypeSize(): nat
      requires Str?
    {
      |text| + 1
    }

    /** The number of elements in the attribute's data space. */
    function Points(): nat
    {
      match this
      case Str(_) | Long(_) | Double(_) => 1
      case LongArray(ns) => |ns|
      case DoubleArray(xs) => |xs|
    }
  }

  /** The element type of an array as created: `int`, `float` or `double`. */
  datatype ElemType = IntElem | FloatElem | DoubleElem

  /** An array: element type, extents, values in row-major order, and the
      chunk extents and deflate level it was created with. Integer arrays
      hold integral values. */
  datatype Array = Array(elem: ElemType, dims: seq<nat>, values: seq<real>, chunk: seq<nat>, deflate: nat)

  /** The number of elements of an array with extents `dims`. */
  function Extent(dims: seq<nat>): nat
  {
    if |dims| == 0 then 1 else Extent(dims[..|dims| - 1]) * dims[|dims| - 1]
  }

  datatype Kind = GroupKind | DatasetKind(data: Array)

  datatype Object = Object(kind: Kind, attrs: map<string, AttrValue>)

  /** Every object, by path. */
  datatype Container = Container(objects: map<Path, Object>)

  predicate IsGroup(c: Container, p: Path)
  {
    p in c.objects && c.objects[p].kind.GroupKind?
  }

  predicate IsDataset(c: Container, p: Path)
  {
    p in c.objects && c.objects[p].kind.DatasetKind?
  }

  /** The root is a group and every other object sits inside a group. */
  predicate WellFormed(c: Container)
  {
    && IsGroup(c, [])
    && forall q :: q in c.objects && q != [] ==> IsGroup(c, q[..|q| - 1])
  }

  /** Adds object `o` as child `name` of group `parent`. Fails when the
      parent is not an open group or the name is taken. */
  function Add(c: Container, parent: Path, name: string, o: Object): (r: Result<Container>)
    ensures r.Success? <==> IsGroup(c, parent) && parent + [name] !in c.objects
    ensures r.Success? ==> r.value.objects == c.objects[parent + [name] := o]
  {
    if !IsGroup(c, parent) then Failure(OpenFailure)
    else if parent + [name] in c.objects then Failure(AlreadyExists)
    else Success(Container(c.objects[parent + [name] := o]))
  }

  /** Adding an object keeps every object inside a group. */
  lemma AddKeepsWellFormed(c: Container, parent: Path, name: string, o: Object)
    requires WellFormed(c) && Add(c, parent, name, o).Success?
    ensures WellFormed(Add(c, parent, name, o).value)
  {
    var c2 := Add(c, parent, name, o).value;
    forall q | q in c2.objects && q != []
      ensures IsGroup(c2, q[..|q| - 1])
    {
      if q == parent + [name] {
        assert q[..|q| - 1] == parent;
      }
    }
  }

  /** A successful add introduces exactly one object, the new child holding
      `o`, and every object already there stays as it was. */
  lemma AddEffect(c: Container, parent: Path, name: string, o: Object)
    requires Add(c, parent, name, o).Success?
    ensures var c2 := Add(c, parent, name, o).value;
            && parent + [name] !in c.objects
            && c2.objects.Keys == c.objects.Keys + {parent + [name]}
            && c2.objects[parent + [name]] == o
            && forall q :: q in c.objects ==> q in c2.objects && c2.objects[q] == c.objects[q]
  {
  }

  /** A new object has no descendants yet. */
  lemma NoDescendants(c: Container, p: Path, q: Path)
    requires WellFormed(c) && p !in c.objects
    requires |q| > |p| && q[..|p|] == p
    ensures q !in c.objects
    decreases |q|
  {
    if q in c.objects {
      var up := q[..|q| - 1];
      assert up in c.objects;
      if |up| > |p| {
        assert up[..|p|] == p;
        NoDescendants(c, p, up);
      }
    }
  }

  /** A second update of the same key overrides the first. */
  lemma UpdateTwice<K, V>(o: map<K, V>, k: K, v1: V, v2: V)
    ensures o[k := v1][k := v2] == o[k := v2]
  {
  }

  /** Creates an empty group `name` inside `parent`. */
  function CreateGroup(c: Container, parent: Path, name: string): (r: Result<Container>)
    ensures r.Success? <==> IsGroup(c, parent) && parent + [name] !in c.objects
    ensures r.Success? ==> r.value.objects == c.objects[parent + [name] := Object(GroupKind, map[])]
  {
    Add(c, parent, name, Object(GroupKind, map[]))
  }

  /** Creates dataset `name` inside `parent`, holding `a` and no attributes. */
  function CreateDataset(c: Container, parent: Path, name: string, a: Array): (r: Result<Container>)
    ensures r.Success? <==> IsGroup(c, parent) && parent + [name] !in c.objects
    ensures r.Success? ==> r.value.objects == c.objects[parent + [name] := Object(DatasetKind(a), map[])]
  {
    Add(c, parent, name, Object(DatasetKind(a), map[]))
  }

  /** Whether object `p` has attribute `name`; fails when `p` is not there. */
  function AttrExists(c: Container, p: Path, name: string): (r: Result<bool>)
    ensures r.Success? <==> p in c.objects
    ensures r.Success? ==> (r.value <==> name in c.objects[p].attrs)
  {
    if p !in c.objects then Failure(OpenFailure) else Success(name in c.objects[p].attrs)
  }

  /** Attribute `name` of object `p`. */
  function ReadAttr(c: Container, p: Path, name: string): (r: Result<AttrValue>)
    ensures r.Success? <==> p in c.objects && name in c.objects[p].attrs
    ensures r.Success? ==> r.value == c.objects[p].attrs[name]
  {
    if p !in c.objects then Failure(OpenFailure)
    else if name !in c.objects[p].attrs then Failure(AttributeMissing)
    else Success(c.objects[p].attrs[name])
  }

  /** Object `p` with attribute `name` set to `v`; nothing else changes. */
  function PutAttr(c: Container, p: Path, name: string, v: AttrValue): (r: Container)
    requires p in c.objects
    ensures r.objects == c.objects[p := c.objects[p].(attrs := c.objects[p].attrs[name := v])]
    ensures r.objects.Keys == c.objects.Keys
    ensures r.objects[p].kind == c.objects[p].kind
    ensures r.objects[p].attrs == c.objects[p].attrs[name := v]
    ensures forall q :: q in c.objects && q != p ==> r.objects[q] == c.objects[q]
  {
    var o := c.objects[p];
    Container(c.objects[p := o.(attrs := o.attrs[name := v])])
  }

  /** Creates attribute `name` on object `p`; fails when it already exists. */
  function CreateAttr(c: Container, p: Path, name: string, v: AttrValue): (r: Result<Container>)
    ensures r.Success? <==> p in c.objects && name !in c.objects[p].attrs
    ensures r.Success? ==> r.value == PutAttr(c, p, name, v)
  {
    if p !in c.objects then Failure(OpenFailure)
    else if name in c.objects[p].attrs then Failure(AlreadyExists)
    else Success(PutAttr(c, p, name, v))
  }

  /** After an attribute is put, it reads back as the value put, and every
      other attribute of every object reads as it did. */
  lemma ReadAfterPut(c: Container, p: Path, name: string, v: AttrValue, q: Path, other: string)
    requires p in c.objects
    ensures ReadAttr(PutAttr(c, p, name, v), q, other)
            == if q == p && other == name then Success(v) else ReadAttr(c, q, other)
  {
  }

  /** An attribute can be created only while it is missing; afterwards it
      reads back as the value created, and every other attribute reads as it
      did. */
  lemma CreateThenRead(c: Container, p: Path, name: string, v: AttrValue, q: Path, other: string)
    requires CreateAttr(c, p, name, v).Success?
    ensures ReadAttr(c, p, name) == Failure(AttributeMissing)
    ensures ReadAttr(CreateAttr(c, p, name, v).value, q, other)
            == if q == p && other == name then Success(v) else ReadAttr(c, q, other)
  {
    ReadAfterPut(c, p, name, v, q, other);
  }

  /** Removes attribute `name` of object `p`; nothing else changes. */
  function DeleteAttr(c: Container, p: Path, name: string): (r: Container)
    requires p in c.objects
    ensures r.objects.Keys == c.objects.Keys
    ensures r.objects[p].kind == c.objects[p].kind
    ensures r.objects[p].attrs == c.objects[p].attrs - {name}
    ensures forall q :: q in c.objects && q != p ==> r.objects[q] == c.objects[q]
  {
    var o := c.objects[p];
    Container(c.objects[p := o.(attrs := o.attrs - {name})])
  }

  /** Dataset `p` with its values replaced; nothing else changes. */
  function PutValues(c: Container, p: Path, values: seq<real>): (r: Container)
    requires IsDataset(c, p)
    ensures r.objects.Keys == c.objects.Keys
    ensures IsDataset(r, p)
    ensures r.objects[p].kind.data == c.objects[p].kind.data.(values := values)
    ensures r.objects[p].attrs == c.objects[p].attrs
    ensures forall q :: q in c.objects && q != p ==> r.objects[q] == c.objects[q]
  {
    var o := c.objects[p];
    Container(c.objects[p := o.(kind := DatasetKind(o.kind.data.(values := values)))])
  }

  /** The paths of the direct children of `p`. */
  function Children(c: Container, p: Path): set<Path>
  {
    set q | q in c.objects.Keys && |q| == |p| + 1 && q[..|p|] == p
  }

  /** The number of objects directly inside `p`. */
  function ChildCount(c: Container, p: Path): nat
  {
    |Children(c, p)|
  }
}

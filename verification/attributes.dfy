/** Typed reading, creation and update of the attributes on one object: the
    string, boolean, integer, real, array, timestamp and enumeration forms
    the library stores. `New*` only creates; `Set*` overwrites numeric
    scalars in place and deletes and recreates strings and arrays. */
module Attributes {
  import opened Outcomes
  import opened Store
  import Numeric
  import Timestamp
  import Codes

  /** The buffer every string attribute is read through. */
  const StringBufSize: nat := 2048
  /** The buffer a boolean is read through: "False" and its terminator. */
  const BoolBufSize: nat := 6
  /** The date buffer: "YYYYMMDD" and its terminator. */
  const DateBufSize: nat := 9
  /** The time buffer: "HHMMSS" and its terminator. */
  const TimeBufSize: nat := 7

  /** Attributes other than `names` on object `p` are as they were, and every
      other object is untouched. */
  predicate OthersUnchanged(c: Container, c2: Container, p: Path, names: set<string>)
  {
    && p in c.objects
    && c2.objects.Keys == c.objects.Keys
    && (forall q :: q in c.objects && q != p ==> c2.objects[q] == c.objects[q])
    && c2.objects[p].kind == c.objects[p].kind
    && c2.objects[p].attrs.Keys - names == c.objects[p].attrs.Keys - names
    && (forall a :: a in c.objects[p].attrs && a !in names ==>
          a in c2.objects[p].attrs && c2.objects[p].attrs[a] == c.objects[p].attrs[a])
  }

  // ---------------------------------------------------------------- reading

  /** A string attribute read into a caller's buffer of `bufSize` bytes: the
      attribute must be a string whose size, terminator included, fits. */
  function GetChars(c: Container, p: Path, name: string, bufSize: nat): (r: Result<string>)
    ensures r.Success? <==> ReadAttr(c, p, name).Success? && ReadAttr(c, p, name).value.Str?
                            && ReadAttr(c, p, name).value.TypeSize() <= bufSize
    ensures r.Success? ==> ReadAttr(c, p, name).value == Str(r.value) && |r.value| < bufSize
    ensures r == Failure(TypeMismatch) <==> ReadAttr(c, p, name).Success? && !ReadAttr(c, p, name).value.Str?
    ensures r == Failure(SizeMismatch) <==> ReadAttr(c, p, name).Success? && ReadAttr(c, p, name).value.Str?
                                            && ReadAttr(c, p, name).value.TypeSize() > bufSize
  {
    var v :- ReadAttr(c, p, name);
    if !v.Str? then Failure(TypeMismatch)
    else if v.TypeSize() > bufSize then Failure(SizeMismatch)
    else Success(v.text)
  }

  /** The text a character buffer holds as a C string: everything before
      its first NUL. */
  function UpToNul(s: string): (r: string)
    ensures r <= s && '\0' !in r
    ensures |r| < |s| ==> s[|r|] == '\0'
  {
    if |s| == 0 || s[0] == '\0' then "" else [s[0]] + UpToNul(s[1..])
  }

  /** A text without a NUL is its own C string. */
  lemma NulFreeWhole(s: string)
    requires '\0' !in s
    ensures UpToNul(s) == s
  {
  }

  /** A string attribute of any length up to the fixed read buffer, taken up
      to its first NUL as a `std::string` assigned from the buffer is. */
  function GetString(c: Container, p: Path, name: string): (r: Result<string>)
    ensures r.Success? <==> ReadAttr(c, p, name).Success? && ReadAttr(c, p, name).value.Str?
                            && |ReadAttr(c, p, name).value.text| < StringBufSize
    ensures r.Success? ==> var text := ReadAttr(c, p, name).value.text;
              && r.value <= text && '\0' !in r.value
              && (|r.value| < |text| ==> text[|r.value|] == '\0')
              && ('\0' !in text ==> r.value == text)
    ensures r == Failure(TypeMismatch) <==> ReadAttr(c, p, name).Success? && !ReadAttr(c, p, name).value.Str?
    ensures r == Failure(SizeMismatch) <==> ReadAttr(c, p, name).Success? && ReadAttr(c, p, name).value.Str?
                                            && |ReadAttr(c, p, name).value.text| >= StringBufSize
  {
    var text :- GetChars(c, p, name, StringBufSize);
    if '\0' !in text then NulFreeWhole(text); Success(UpToNul(text))
    else Success(UpToNul(text))
  }

  /** A boolean, stored as the text "True" or "False" and compared as a C
      string; any other text is a bad value. */
  function GetBool(c: Container, p: Path, name: string): (r: Result<bool>)
    ensures r.Success? <==> GetChars(c, p, name, BoolBufSize).Success?
                            && UpToNul(GetChars(c, p, name, BoolBufSize).value) in {Codes.ValTrue, Codes.ValFalse}
    ensures r.Success? ==> (r.value <==> UpToNul(GetChars(c, p, name, BoolBufSize).value) == Codes.ValTrue)
    ensures GetChars(c, p, name, BoolBufSize).Success? && r.Failure? ==> r.error == BadValue
  {
    var text :- GetChars(c, p, name, BoolBufSize);
    var s := UpToNul(text);
    if s == Codes.ValTrue then Success(true)
    else if s == Codes.ValFalse then Success(false)
    else Failure(BadValue)
  }

  /** The integers an attribute holds, a scalar as one element, when it is of
      the integer class. */
  function IntegerElements(v: AttrValue): (r: seq<int>)
    requires v.Class() == IntegerClass
    ensures |r| == v.Points()
  {
    if v.Long? then [v.n] else v.ns
  }

  /** The reals an attribute holds, a scalar as one element, when it is of the
      float class. */
  function FloatElements(v: AttrValue): (r: seq<real>)
    requires v.Class() == FloatClass
    ensures |r| == v.Points()
  {
    if v.Double? then [v.x] else v.xs
  }

  /** A numeric attribute of one element, as a real. */
  function OneNumber(v: AttrValue): (r: Result<real>)
    ensures r.Success? <==> v.Class() != StringClass && v.Points() == 1
    ensures r.Success? && v.Class() == IntegerClass ==> r.value == IntegerElements(v)[0] as real
    ensures r.Success? && v.Class() == FloatClass ==> r.value == FloatElements(v)[0]
  {
    match v
    case Str(_) => Failure(ReadFailure)
    case Long(n) => Success(n as real)
    case Double(x) => Success(x)
    case LongArray(ns) => if |ns| == 1 then Success(ns[0] as real) else Failure(SizeMismatch)
    case DoubleArray(xs) => if |xs| == 1 then Success(xs[0]) else Failure(SizeMismatch)
  }

  /** A `long`: an integer attribute reads as itself and a real one is
      truncated toward zero; a string cannot be converted. */
  function GetLong(c: Container, p: Path, name: string): (r: Result<int>)
    ensures r.Success? <==> ReadAttr(c, p, name).Success? && OneNumber(ReadAttr(c, p, name).value).Success?
    ensures r.Success? ==> r.value == Numeric.Truncate(OneNumber(ReadAttr(c, p, name).value).value)
  {
    var v :- ReadAttr(c, p, name);
    var x :- OneNumber(v);
    Success(Numeric.Truncate(x))
  }

  /** A `double`: integer and real attributes alike. */
  function GetDouble(c: Container, p: Path, name: string): (r: Result<real>)
    ensures r.Success? <==> ReadAttr(c, p, name).Success? && OneNumber(ReadAttr(c, p, name).value).Success?
    ensures r.Success? ==> r.value == OneNumber(ReadAttr(c, p, name).value).value
  {
    var v :- ReadAttr(c, p, name);
    OneNumber(v)
  }

  /** A `long` array read into a buffer of `capacity` elements: the attribute
      must be of the integer class and no longer than the buffer; the result
      carries the element count. */
  function GetLongArray(c: Container, p: Path, name: string, capacity: nat): (r: Result<seq<int>>)
    ensures r.Success? <==> ReadAttr(c, p, name).Success? && ReadAttr(c, p, name).value.Class() == IntegerClass
                            && ReadAttr(c, p, name).value.Points() <= capacity
    ensures r.Success? ==> r.value == IntegerElements(ReadAttr(c, p, name).value) && |r.value| <= capacity
    ensures r == Failure(TypeMismatch) <==> ReadAttr(c, p, name).Success?
                                            && ReadAttr(c, p, name).value.Class() != IntegerClass
  {
    var v :- ReadAttr(c, p, name);
    if v.Class() != IntegerClass then Failure(TypeMismatch)
    else if v.Points() > capacity then Failure(SizeMismatch)
    else Success(IntegerElements(v))
  }

  /** The `double` array read as the library writes it: the class check asks
      for integers, so a real-valued array is refused and an integer one is
      converted. */
  function GetDoubleArrayAsWritten(c: Container, p: Path, name: string, capacity: nat): (r: Result<seq<real>>)
    ensures r.Success? <==> ReadAttr(c, p, name).Success? && ReadAttr(c, p, name).value.Class() == IntegerClass
                            && ReadAttr(c, p, name).value.Points() <= capacity
    ensures r.Success? ==> |r.value| == ReadAttr(c, p, name).value.Points()
  {
    var v :- ReadAttr(c, p, name);
    if v.Class() != IntegerClass then Failure(TypeMismatch)
    else if v.Points() > capacity then Failure(SizeMismatch)
    else Success(seq(|IntegerElements(v)|, i requires 0 <= i < |IntegerElements(v)| => IntegerElements(v)[i] as real))
  }

  /** The `double` array read with the floating-point class check its comment
      describes. */
  function GetDoubleArray(c: Container, p: Path, name: string, capacity: nat): (r: Result<seq<real>>)
    ensures r.Success? <==> ReadAttr(c, p, name).Success? && ReadAttr(c, p, name).value.Class() == FloatClass
                            && ReadAttr(c, p, name).value.Points() <= capacity
    ensures r.Success? ==> r.value == FloatElements(ReadAttr(c, p, name).value) && |r.value| <= capacity
    ensures r == Failure(TypeMismatch) <==> ReadAttr(c, p, name).Success?
                                            && ReadAttr(c, p, name).value.Class() != FloatClass
  {
    var v :- ReadAttr(c, p, name);
    if v.Class() != FloatClass then Failure(TypeMismatch)
    else if v.Points() > capacity then Failure(SizeMismatch)
    else Success(FloatElements(v))
  }

  /** An instant stored as a date text and a time text; a bad value when the
      joined text does not scan as six fields. */
  function GetTime(c: Container, p: Path, dateName: string, timeName: string): (r: Result<int>)
    ensures r.Success? ==> GetChars(c, p, dateName, DateBufSize).Success? && GetChars(c, p, timeName, TimeBufSize).Success?
                           && Timestamp.Decode(GetChars(c, p, dateName, DateBufSize).value,
                                               GetChars(c, p, timeName, TimeBufSize).value) == Some(r.value)
    ensures GetChars(c, p, dateName, DateBufSize).Success? && GetChars(c, p, timeName, TimeBufSize).Success?
            && Timestamp.Decode(GetChars(c, p, dateName, DateBufSize).value,
                                GetChars(c, p, timeName, TimeBufSize).value).None?
            ==> r == Failure(BadValue)
    ensures GetChars(c, p, dateName, DateBufSize).Success? && GetChars(c, p, timeName, TimeBufSize).Success?
            && Timestamp.Decode(GetChars(c, p, dateName, DateBufSize).value,
                                GetChars(c, p, timeName, TimeBufSize).value).Some?
            ==> r == Success(Timestamp.Decode(GetChars(c, p, dateName, DateBufSize).value,
                                              GetChars(c, p, timeName, TimeBufSize).value).value)
    ensures GetChars(c, p, dateName, DateBufSize).Failure? ==> r == Failure(GetChars(c, p, dateName, DateBufSize).error)
    ensures GetChars(c, p, dateName, DateBufSize).Success? && GetChars(c, p, timeName, TimeBufSize).Failure?
            ==> r == Failure(GetChars(c, p, timeName, TimeBufSize).error)
  {
    var date :- GetChars(c, p, dateName, DateBufSize);
    var time :- GetChars(c, p, timeName, TimeBufSize);
    match Timestamp.Decode(date, time)
    case None => Failure(BadValue)
    case Some(t) => Success(t)
  }

  /** An object type stored as its code: a known type is the one whose code
      the text is, and a text that is no type's code reads as unknown. */
  function GetObject(c: Container, p: Path, name: string): (r: Result<Codes.ObjectType>)
    ensures r.Success? <==> GetString(c, p, name).Success?
    ensures r.Success? && r.value != Codes.ObjUnknown ==> Codes.ObjectCode(r.value) == Some(GetString(c, p, name).value)
    ensures r.Success? && r.value == Codes.ObjUnknown ==>
              forall o: Codes.ObjectType :: Codes.ObjectCode(o) != Some(GetString(c, p, name).value)
  {
    var code :- GetString(c, p, name);
    var o := Codes.ObjectOf(code);
    if o != Codes.ObjUnknown then Codes.ObjectCodeOf(code); Success(o)
    else
      assert forall o': Codes.ObjectType :: Codes.ObjectCode(o') != Some(code) by {
        forall o': Codes.ObjectType | o' != Codes.ObjUnknown ensures Codes.ObjectCode(o') != Some(code) {
          Codes.ObjectOfCode(o');
        }
      }
      Success(o)
  }

  /** A product type stored as its code: a known type is the one whose code
      the text is, and a text that is no type's code reads as unknown. */
  function GetProduct(c: Container, p: Path, name: string): (r: Result<Codes.ProductType>)
    ensures r.Success? <==> GetString(c, p, name).Success?
    ensures r.Success? && r.value != Codes.ProdUnknown ==> Codes.ProductCode(r.value) == Some(GetString(c, p, name).value)
    ensures r.Success? && r.value == Codes.ProdUnknown ==>
              forall t: Codes.ProductType :: Codes.ProductCode(t) != Some(GetString(c, p, name).value)
  {
    var code :- GetString(c, p, name);
    var t := Codes.ProductOf(code);
    if t != Codes.ProdUnknown then Codes.ProductCodeOf(code); Success(t)
    else
      assert forall t': Codes.ProductType :: Codes.ProductCode(t') != Some(code) by {
        forall t': Codes.ProductType | t' != Codes.ProdUnknown ensures Codes.ProductCode(t') != Some(code) {
          Codes.ProductOfCode(t');
        }
      }
      Success(t)
  }

  /** A quantity stored as its code: a known quantity is the one whose code
      the text is, and a text that is no quantity's code reads as unknown. */
  function GetQuantity(c: Container, p: Path, name: string): (r: Result<Codes.Quantity>)
    ensures r.Success? <==> GetString(c, p, name).Success?
    ensures r.Success? && r.value != Codes.QtyUnknown ==> Codes.QuantityCode(r.value) == Some(GetString(c, p, name).value)
    ensures r.Success? && r.value == Codes.QtyUnknown ==>
              forall q: Codes.Quantity :: Codes.QuantityCode(q) != Some(GetString(c, p, name).value)
  {
    var code :- GetString(c, p, name);
    var q := Codes.QuantityOf(code);
    if q != Codes.QtyUnknown then Codes.QuantityCodeOf(code); Success(q)
    else
      assert forall q': Codes.Quantity :: Codes.QuantityCode(q') != Some(code) by {
        forall q': Codes.Quantity | q' != Codes.QtyUnknown ensures Codes.QuantityCode(q') != Some(code) {
          Codes.QuantityOfCode(q');
        }
      }
      Success(q)
  }

  // --------------------------------------------------------------- creating

  /** Creates attribute `name` holding `v`; fails if it already exists. */
  function New(c: Container, p: Path, name: string, v: AttrValue): (r: Result<Container>)
    ensures r.Success? <==> p in c.objects && name !in c.objects[p].attrs
    ensures r.Success? ==> OthersUnchanged(c, r.value, p, {name})
    ensures r.Success? ==> name in r.value.objects[p].attrs && r.value.objects[p].attrs[name] == v
  {
    CreateAttr(c, p, name, v)
  }

  function NewString(c: Container, p: Path, name: string, text: string): (r: Result<Container>)
  {
    New(c, p, name, Str(text))
  }

  function NewLong(c: Container, p: Path, name: string, n: int): (r: Result<Container>)
  {
    New(c, p, name, Long(n))
  }

  function NewDouble(c: Container, p: Path, name: string, x: real): (r: Result<Container>)
  {
    New(c, p, name, Double(x))
  }

  /** A boolean is created as the text "True" or "False". */
  function NewBool(c: Container, p: Path, name: string, b: bool): (r: Result<Container>)
  {
    NewString(c, p, name, if b then Codes.ValTrue else Codes.ValFalse)
  }

  /** Two successive writes, of `n1` and then of `n2`, leave everything but
      `n1` and `n2` as it was, and the second keeps what the first wrote. */
  lemma FrameCompose(c: Container, c1: Container, c2: Container, p: Path, n1: string, n2: string)
    requires n1 != n2
    requires OthersUnchanged(c, c1, p, {n1}) && OthersUnchanged(c1, c2, p, {n2})
    requires n1 in c1.objects[p].attrs
    ensures OthersUnchanged(c, c2, p, {n1, n2})
    ensures n1 in c2.objects[p].attrs && c2.objects[p].attrs[n1] == c1.objects[p].attrs[n1]
  {
    var k0, k1, k2 := c.objects[p].attrs.Keys, c1.objects[p].attrs.Keys, c2.objects[p].attrs.Keys;
    calc {
      k2 - {n1, n2};
      (k2 - {n2}) - {n1};
      (k1 - {n2}) - {n1};
      (k1 - {n1}) - {n2};
      (k0 - {n1}) - {n2};
      k0 - {n1, n2};
    }
    assert n1 in k1 - {n2};
    forall a | a in c.objects[p].attrs && a !in {n1, n2}
      ensures a in c2.objects[p].attrs && c2.objects[p].attrs[a] == c.objects[p].attrs[a]
    {
      assert a in k0 - {n1};
    }
  }

  /** When the attributes `v` names are the only ones that changed and now
      hold the values of `v`, the container is the old one with `v` merged
      into the object's attributes. */
  lemma FrameExact(c: Container, c2: Container, p: Path, v: map<string, AttrValue>)
    requires OthersUnchanged(c, c2, p, v.Keys)
    requires forall n :: n in v ==> n in c2.objects[p].attrs && c2.objects[p].attrs[n] == v[n]
    ensures c2.objects == c.objects[p := c.objects[p].(attrs := c.objects[p].attrs + v)]
  {
    var merged := c.objects[p].attrs + v;
    assert c2.objects[p].attrs.Keys == merged.Keys by {
      var k0, k2 := c.objects[p].attrs.Keys, c2.objects[p].attrs.Keys;
      assert k2 == (k2 - v.Keys) + v.Keys;
      assert merged.Keys == (k0 - v.Keys) + v.Keys;
    }
    assert c2.objects[p].attrs == merged;
  }

  /** No name appears twice in `entries`. */
  predicate DistinctNames(entries: seq<(string, AttrValue)>)
  {
    forall i, j :: 0 <= i < j < |entries| ==> entries[i].0 != entries[j].0
  }

  /** The attributes `entries` define, a later entry winning over an
      earlier one of the same name. */
  function EntryMap(entries: seq<(string, AttrValue)>): (m: map<string, AttrValue>)
    ensures m.Keys == set i | 0 <= i < |entries| :: entries[i].0
  {
    if |entries| == 0 then map[]
    else
      var m := EntryMap(entries[..|entries| - 1])[entries[|entries| - 1].0 := entries[|entries| - 1].1];
      assert m.Keys == set i | 0 <= i < |entries| :: entries[i].0 by {
        forall i | 0 <= i < |entries| - 1 ensures entries[..|entries| - 1][i] == entries[i] { }
      }
      m
  }

  /** Creates the attributes of `entries` on object `p`, first to last. */
  function NewEach(c: Container, p: Path, entries: seq<(string, AttrValue)>): Result<Container>
    decreases |entries|
  {
    if |entries| == 0 then Success(c)
    else
      var c1 :- NewEach(c, p, entries[..|entries| - 1]);
      New(c1, p, entries[|entries| - 1].0, entries[|entries| - 1].1)
  }

  /** Creating an absent attribute on an object whose attributes are `x`. */
  lemma NewOnto(c: Container, p: Path, x: map<string, AttrValue>, name: string, v: AttrValue)
    requires p in c.objects && name !in x
    ensures New(Container(c.objects[p := c.objects[p].(attrs := x)]), p, name, v)
            == Success(Container(c.objects[p := c.objects[p].(attrs := x[name := v])]))
  {
    var o := c.objects[p];
    var c1 := Container(c.objects[p := o.(attrs := x)]);
    assert c1.objects[p] == o.(attrs := x);
    assert c1.objects[p := o.(attrs := x[name := v])] == c.objects[p := o.(attrs := x[name := v])];
  }

  /** Creating attributes with distinct fresh names succeeds and merges them
      into the object; nothing else changes. */
  lemma {:induction false} NewEachFresh(c: Container, p: Path, entries: seq<(string, AttrValue)>)
    requires p in c.objects && DistinctNames(entries)
    requires forall i :: 0 <= i < |entries| ==> entries[i].0 !in c.objects[p].attrs
    ensures NewEach(c, p, entries) == Success(Container(c.objects[p := c.objects[p].(attrs := c.objects[p].attrs + EntryMap(entries))]))
    decreases |entries|
  {
    var o := c.objects[p];
    if |entries| > 0 {
      var front := entries[..|entries| - 1];
      var last := entries[|entries| - 1];
      var x := o.attrs + EntryMap(front);
      FrontFresh(o.attrs, entries);
      NewEachFresh(c, p, front);
      NewOnto(c, p, x, last.0, last.1);
      MergeUpdate(o.attrs, EntryMap(front), last.0, last.1);
    } else {
      assert o.attrs + map[] == o.attrs;
      assert c.objects[p := o] == c.objects;
    }
  }

  /** Dropping the last of distinct fresh entries leaves distinct fresh
      entries, none of them named as the last. */
  lemma FrontFresh(attrs: map<string, AttrValue>, entries: seq<(string, AttrValue)>)
    requires |entries| > 0 && DistinctNames(entries)
    requires forall i :: 0 <= i < |entries| ==> entries[i].0 !in attrs
    ensures var front := entries[..|entries| - 1];
            && DistinctNames(front)
            && (forall i :: 0 <= i < |front| ==> front[i].0 !in attrs)
            && entries[|entries| - 1].0 !in attrs + EntryMap(front)
  {
    var front := entries[..|entries| - 1];
    assert forall i :: 0 <= i < |front| ==> front[i] == entries[i];
  }

  /** Updating a merge updates its right-hand side. */
  lemma MergeUpdate<K, V>(a: map<K, V>, b: map<K, V>, k: K, v: V)
    ensures (a + b)[k := v] == a + b[k := v]
  {
  }

  /** Each entry of a list with distinct names is found in its map. */
  lemma {:induction false} EntryMapAt(entries: seq<(string, AttrValue)>, i: nat)
    requires DistinctNames(entries) && i < |entries|
    ensures entries[i].0 in EntryMap(entries) && EntryMap(entries)[entries[i].0] == entries[i].1
    decreases |entries|
  {
    if i < |entries| - 1 {
      var front := entries[..|entries| - 1];
      assert front[i] == entries[i];
      EntryMapAt(front, i);
    }
  }

  /** An object holding exactly the attributes of a list with distinct
      names reads each entry back. */
  lemma ReadEntry(c: Container, p: Path, entries: seq<(string, AttrValue)>, i: nat)
    requires p in c.objects && c.objects[p].attrs == EntryMap(entries)
    requires DistinctNames(entries) && i < |entries|
    ensures ReadAttr(c, p, entries[i].0) == Success(entries[i].1)
  {
    EntryMapAt(entries, i);
  }

  /** Creates the date and time attributes of instant `t`. */
  function NewTime(c: Container, p: Path, dateName: string, timeName: string, t: int): (r: Result<Container>)
    requires dateName != timeName
    ensures r.Success? <==> p in c.objects && dateName !in c.objects[p].attrs && timeName !in c.objects[p].attrs
    ensures r.Success? ==> OthersUnchanged(c, r.value, p, {dateName, timeName})
    ensures r.Success? ==> dateName in r.value.objects[p].attrs && timeName in r.value.objects[p].attrs
    ensures r.Success? ==> r.value.objects[p].attrs[dateName] == Str(Timestamp.Encode(t).0)
                           && r.value.objects[p].attrs[timeName] == Str(Timestamp.Encode(t).1)
  {
    var text := Timestamp.Encode(t);
    var c1 :- NewString(c, p, dateName, text.0);
    var r := NewString(c1, p, timeName, text.1);
    if r.Success? then FrameCompose(c, c1, r.value, p, dateName, timeName); r else r
  }

  /** Creates an enumeration attribute as its code; a value without a code is
      a bad value. */
  function NewCode(c: Container, p: Path, name: string, code: Option<string>): (r: Result<Container>)
    ensures code.None? ==> r == Failure(BadValue)
    ensures code.Some? ==> (r.Success? <==> p in c.objects && name !in c.objects[p].attrs)
    ensures r.Success? ==> OthersUnchanged(c, r.value, p, {name})
    ensures r.Success? ==> name in r.value.objects[p].attrs && r.value.objects[p].attrs[name] == Str(code.value)
  {
    if code.None? then Failure(BadValue) else NewString(c, p, name, code.value)
  }

  // --------------------------------------------------------------- updating

  /** The attribute an in-place numeric write leaves behind: the value is
      converted to the stored type, an integer attribute truncating a real.
      A string cannot take a number; an array takes it only when it has
      exactly one element. */
  function WriteNumber(prev: AttrValue, x: real): (r: Result<AttrValue>)
    ensures r.Success? <==> OneNumber(prev).Success?
    ensures r.Success? ==> r.value.Class() == prev.Class() && r.value.Points() == prev.Points()
    ensures r.Success? && prev.Class() == IntegerClass ==> IntegerElements(r.value) == [Numeric.Truncate(x)]
    ensures r.Success? && prev.Class() == FloatClass ==> FloatElements(r.value) == [x]
  {
    match prev
    case Str(_) => Failure(WriteFailure)
    case Long(_) => Success(Long(Numeric.Truncate(x)))
    case Double(_) => Success(Double(x))
    case LongArray(ns) => if |ns| == 1 then Success(LongArray([Numeric.Truncate(x)])) else Failure(SizeMismatch)
    case DoubleArray(xs) => if |xs| == 1 then Success(DoubleArray([x])) else Failure(SizeMismatch)
  }

  /** Writes a number into an existing attribute in place, or creates
      `created` when there is none. */
  function SetNumber(c: Container, p: Path, name: string, x: real, created: AttrValue): (r: Result<Container>)
    ensures r.Success? <==> p in c.objects && (name in c.objects[p].attrs ==> OneNumber(c.objects[p].attrs[name]).Success?)
    ensures r.Success? ==> OthersUnchanged(c, r.value, p, {name}) && name in r.value.objects[p].attrs
    ensures r.Success? && name !in c.objects[p].attrs ==> r.value.objects[p].attrs[name] == created
    ensures r.Success? && name in c.objects[p].attrs
            ==> r.value.objects[p].attrs[name] == WriteNumber(c.objects[p].attrs[name], x).value
  {
    var present :- AttrExists(c, p, name);
    if !present then New(c, p, name, created)
    else
      var v :- WriteNumber(c.objects[p].attrs[name], x);
      Success(PutAttr(c, p, name, v))
  }

  /** Sets a `long`: written in place when the attribute exists, created
      otherwise. */
  function SetLong(c: Container, p: Path, name: string, n: int): (r: Result<Container>)
  {
    SetNumber(c, p, name, n as real, Long(n))
  }

  /** Sets a `double`: written in place when the attribute exists, created
      otherwise. */
  function SetDouble(c: Container, p: Path, name: string, x: real): (r: Result<Container>)
  {
    SetNumber(c, p, name, x, Double(x))
  }

  /** Deletes any attribute `name` and creates it afresh holding `v`, so its
      type and size follow `v`. */
  function Replace(c: Container, p: Path, name: string, v: AttrValue): (r: Result<Container>)
    ensures r.Success? <==> p in c.objects
    ensures r.Success? ==> OthersUnchanged(c, r.value, p, {name})
    ensures r.Success? ==> name in r.value.objects[p].attrs && r.value.objects[p].attrs[name] == v
  {
    var present :- AttrExists(c, p, name);
    var c1 := if present then DeleteAttr(c, p, name) else c;
    New(c1, p, name, v)
  }

  function SetString(c: Container, p: Path, name: string, text: string): (r: Result<Container>)
  {
    Replace(c, p, name, Str(text))
  }

  function SetBool(c: Container, p: Path, name: string, b: bool): (r: Result<Container>)
  {
    SetString(c, p, name, if b then Codes.ValTrue else Codes.ValFalse)
  }

  function SetLongArray(c: Container, p: Path, name: string, ns: seq<int>): (r: Result<Container>)
  {
    Replace(c, p, name, LongArray(ns))
  }

  function SetDoubleArray(c: Container, p: Path, name: string, xs: seq<real>): (r: Result<Container>)
  {
    Replace(c, p, name, DoubleArray(xs))
  }

  /** Replaces the date and time attributes of an instant. */
  function SetTime(c: Container, p: Path, dateName: string, timeName: string, t: int): (r: Result<Container>)
    requires dateName != timeName
    ensures r.Success? <==> p in c.objects
    ensures r.Success? ==> OthersUnchanged(c, r.value, p, {dateName, timeName})
    ensures r.Success? ==> dateName in r.value.objects[p].attrs && timeName in r.value.objects[p].attrs
    ensures r.Success? ==> r.value.objects[p].attrs[dateName] == Str(Timestamp.Encode(t).0)
                           && r.value.objects[p].attrs[timeName] == Str(Timestamp.Encode(t).1)
  {
    var text := Timestamp.Encode(t);
    var c1 :- SetString(c, p, dateName, text.0);
    var r := SetString(c1, p, timeName, text.1);
    if r.Success? then FrameCompose(c, c1, r.value, p, dateName, timeName); r else r
  }

  /** Replaces an enumeration attribute with its code. */
  function SetCode(c: Container, p: Path, name: string, code: Option<string>): (r: Result<Container>)
    ensures code.None? ==> r == Failure(BadValue)
    ensures code.Some? ==> (r.Success? <==> p in c.objects)
    ensures r.Success? ==> OthersUnchanged(c, r.value, p, {name})
    ensures r.Success? ==> name in r.value.objects[p].attrs && r.value.objects[p].attrs[name] == Str(code.value)
  {
    if code.None? then Failure(BadValue) else SetString(c, p, name, code.value)
  }

  // ------------------------------------------------------------ round trips

  /** A string written is read back when it fits the read buffer with its
      terminator, up to its first NUL; a longer one is refused as a size
      mismatch. */
  lemma StringRoundTrip(c: Container, p: Path, name: string, text: string)
    requires SetString(c, p, name, text).Success?
    ensures |text| < StringBufSize ==> GetString(SetString(c, p, name, text).value, p, name) == Success(UpToNul(text))
    ensures |text| < StringBufSize && '\0' !in text ==> GetString(SetString(c, p, name, text).value, p, name) == Success(text)
    ensures |text| >= StringBufSize ==> GetString(SetString(c, p, name, text).value, p, name) == Failure(SizeMismatch)
  {
    if '\0' !in text {
      NulFreeWhole(text);
    }
  }

  /** A known quantity created as its code reads back as itself. */
  lemma NewQuantityReads(c: Container, p: Path, name: string, q: Codes.Quantity)
    requires NewCode(c, p, name, Codes.QuantityCode(q)).Success?
    ensures q != Codes.QtyUnknown
    ensures GetQuantity(NewCode(c, p, name, Codes.QuantityCode(q)).value, p, name) == Success(q)
  {
    NulFreeWhole(Codes.QuantityCode(q).value);
    Codes.QuantityOfCode(q);
  }

  /** A boolean written is read back. */
  lemma BoolRoundTrip(c: Container, p: Path, name: string, b: bool)
    requires SetBool(c, p, name, b).Success?
    ensures GetBool(SetBool(c, p, name, b).value, p, name) == Success(b)
  {
  }

  /** A `long` written is read back, whatever numeric type the attribute
      already had. */
  lemma LongRoundTrip(c: Container, p: Path, name: string, n: int)
    requires SetLong(c, p, name, n).Success?
    ensures GetLong(SetLong(c, p, name, n).value, p, name) == Success(n)
  {
    Numeric.IntegralUnchanged(n);
  }

  /** A `double` written is read back, except that an attribute already of
      the integer class keeps its type and so holds the value truncated. */
  lemma DoubleRoundTrip(c: Container, p: Path, name: string, x: real)
    requires SetDouble(c, p, name, x).Success?
    ensures var integral := name in c.objects[p].attrs && c.objects[p].attrs[name].Class() == IntegerClass;
            GetDouble(SetDouble(c, p, name, x).value, p, name)
              == Success(if integral then Numeric.Truncate(x) as real else x)
  {
  }

  /** A `long` array written is read back whenever the buffer can hold it. */
  lemma LongArrayRoundTrip(c: Container, p: Path, name: string, ns: seq<int>, capacity: nat)
    requires SetLongArray(c, p, name, ns).Success?
    ensures GetLongArray(SetLongArray(c, p, name, ns).value, p, name, capacity)
            == if |ns| <= capacity then Success(ns) else Failure(SizeMismatch)
  {
  }

  /** A `double` array written is read back whenever the buffer can hold it. */
  lemma DoubleArrayRoundTrip(c: Container, p: Path, name: string, xs: seq<real>, capacity: nat)
    requires SetDoubleArray(c, p, name, xs).Success?
    ensures GetDoubleArray(SetDoubleArray(c, p, name, xs).value, p, name, capacity)
            == if |xs| <= capacity then Success(xs) else Failure(SizeMismatch)
  {
  }

  /** As written, the `double` array reader refuses every array the `double`
      array writer produces. */
  lemma DoubleArrayAsWrittenRefuses(c: Container, p: Path, name: string, xs: seq<real>, capacity: nat)
    requires SetDoubleArray(c, p, name, xs).Success?
    ensures GetDoubleArrayAsWritten(SetDoubleArray(c, p, name, xs).value, p, name, capacity) == Failure(TypeMismatch)
  {
  }

  /** An instant written is read back, for every year that prints as four
      digits. */
  lemma TimeRoundTrip(c: Container, p: Path, dateName: string, timeName: string, t: int)
    requires dateName != timeName
    requires SetTime(c, p, dateName, timeName, t).Success?
    requires 0 <= Timestamp.YearOf(t) <= 9999
    ensures GetTime(SetTime(c, p, dateName, timeName, t).value, p, dateName, timeName) == Success(t)
  {
    Timestamp.DecodeEncode(t);
  }

  /** A known object type written as its code reads back as itself. */
  lemma ObjectRoundTrip(c: Container, p: Path, name: string, o: Codes.ObjectType)
    requires SetCode(c, p, name, Codes.ObjectCode(o)).Success?
    ensures o != Codes.ObjUnknown
    ensures GetObject(SetCode(c, p, name, Codes.ObjectCode(o)).value, p, name) == Success(o)
  {
    NulFreeWhole(Codes.ObjectCode(o).value);
    Codes.ObjectOfCode(o);
  }

  /** A known product type written as its code reads back as itself. */
  lemma ProductRoundTrip(c: Container, p: Path, name: string, t: Codes.ProductType)
    requires SetCode(c, p, name, Codes.ProductCode(t)).Success?
    ensures t != Codes.ProdUnknown
    ensures GetProduct(SetCode(c, p, name, Codes.ProductCode(t)).value, p, name) == Success(t)
  {
    NulFreeWhole(Codes.ProductCode(t).value);
    Codes.ProductOfCode(t);
  }

  /** A known quantity written as its code reads back as itself. */
  lemma QuantityRoundTrip(c: Container, p: Path, name: string, q: Codes.Quantity)
    requires SetCode(c, p, name, Codes.QuantityCode(q)).Success?
    ensures q != Codes.QtyUnknown
    ensures GetQuantity(SetCode(c, p, name, Codes.QuantityCode(q)).value, p, name) == Success(q)
  {
    NulFreeWhole(Codes.QuantityCode(q).value);
    Codes.QuantityOfCode(q);
  }

  /** Writing one attribute does not change how any other reads. */
  lemma ReadOther(c: Container, c2: Container, p: Path, names: set<string>, other: string)
    requires OthersUnchanged(c, c2, p, names) && other !in names
    ensures ReadAttr(c2, p, other) == ReadAttr(c, p, other)
  {
    assert other in c2.objects[p].attrs <==> other in c.objects[p].attrs by {
      assert other in c2.objects[p].attrs.Keys - names <==> other in c.objects[p].attrs.Keys - names;
    }
  }
}

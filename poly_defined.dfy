/**
 * The five-slot concept of the poly tests (test/entt/poly/poly_defined.cpp
 * and test/entt/poly/poly.cpp): `incr`, `set`, `get`, `decr` and `mul` over
 * a type `impl` holding one `int`.
 *
 * The concept is given twice, as the tests give it: once with its function
 * types listed (defined mode), once through the bindings it gives the
 * inspector (deduced mode). The scenarios below are the tests' sequences of
 * calls, on an owned object and on an aliased one.
 */
module PolyDefined {
  import opened AnyCore
  import opened PolyVTable
  import opened PolyCore

  /** `impl`: a single `int`, nothrow-movable, so a box keeps it inline. */
  const Impl: TypeDesc := TypeDesc(1, 4, true)

  /** The slots, in the order the concept lists them. */
  const IncrSlot: nat := 0
  const SetSlot: nat := 1
  const GetSlot: nat := 2
  const DecrSlot: nat := 3
  const MulSlot: nat := 4

  /** The first argument of a call, for slots of arity one. */
  function Arg(args: seq<int>): int
  {
    if |args| == 0 then 0 else args[0]
  }

  /** `Defined`: `void()`, `void(int)`, `int() const`, `void()`, `int(int)`. */
  const Defined: Concept :=
    Concept([FnType(false, 0), FnType(false, 1), FnType(true, 0), FnType(false, 0), FnType(false, 1)], [])

  /** `Clazz`: the same slots deduced from its bindings for the inspector,
      `&incr`, `&set`, `&get`, a lambda over `inspector &` and a lambda over
      `const inspector &` taking one argument. */
  const Deduced: Concept :=
    Concept([], [Signature(Member(false), 0), Signature(Member(false), 1), Signature(Member(true), 0),
                 Signature(FreeWithInspector(false), 0), Signature(FreeWithInspector(true), 1)])

  /** `poly_impl<Defined, Type>`, which only `impl` satisfies: `decr` calls
      `decrement`, `mul` calls `multiply` through a `Type &`. */
  function DefinedImpl(ty: ObjectId): seq<Candidate>
  {
    if ty != Impl.id then []
    else
      [ OnSelf(0, Writes((v: int, a: seq<int>) => (v + 1, 0))),
        OnSelf(1, Writes((v: int, a: seq<int>) => (Arg(a), 0))),
        OnSelf(0, Reads((v: int, a: seq<int>) => v)),
        OnSelf(0, Writes((v: int, a: seq<int>) => (v - 1, 0))),
        OnSelf(1, Writes((v: int, a: seq<int>) => (v, Arg(a) * v))) ]
  }

  /** `poly_impl<Clazz, Type>`: `decr` sets `get() - 1`, `mul` reads the
      object through a `const Type &`. */
  function DeducedImpl(ty: ObjectId): seq<Candidate>
  {
    if ty != Impl.id then []
    else
      [ OnSelf(0, Writes((v: int, a: seq<int>) => (v + 1, 0))),
        OnSelf(1, Writes((v: int, a: seq<int>) => (Arg(a), 0))),
        OnSelf(0, Reads((v: int, a: seq<int>) => v)),
        OnSelf(0, Writes((v: int, a: seq<int>) => (v - 1, 0))),
        OnSelf(1, Reads((v: int, a: seq<int>) => Arg(a) * v)) ]
  }

  /** The factory is that of one of the two concepts, with its bindings. */
  ghost predicate ImplFactory(f: VTableFactory)
  {
    || (f.concept == Defined && f.impls == DefinedImpl)
    || (f.concept == Deduced && f.impls == DeducedImpl)
  }

  /** The factory of one of the two concepts: slot `get` takes the storage
      as `const any &` in both, slot `mul` only in the deduced one. */
  method MakeFactory(deduced: bool) returns (f: VTableFactory)
    ensures fresh(f) && f.Valid() && f.cache == map[] && f.Compiles(Impl.id) && ImplFactory(f)
    ensures f.concept == (if deduced then Deduced else Defined)
    ensures |f.Slots()| == 5
    ensures f.Slots()[GetSlot] == SlotType(ConstAny, 0)
    ensures f.Slots()[MulSlot] == SlotType(if deduced then ConstAny else MutableAny, 1)
    ensures forall m :: m in {IncrSlot, SetSlot, DecrSlot} ==> f.Slots()[m].storage == MutableAny
  {
    if deduced {
      f := new VTableFactory(Deduced, DeducedImpl);
    } else {
      f := new VTableFactory(Defined, DefinedImpl);
    }
  }

  /** `p` is a valid poly of one of the two concepts holding an `impl`
      that has not been destroyed. */
  ghost predicate HoldsImpl(p: Poly)
    reads p, p.storage, p.storage.instance, p.factory
  {
    p.Valid() && p.Type() == Impl.id && ImplFactory(p.factory) && p.Data().live
  }

  /** `incr()`: `poly_call<0>(*this)` */
  method Incr(p: Poly)
    requires HoldsImpl(p)
    modifies p.Data()`value
    ensures HoldsImpl(p) && p.Data() == old(p.Data()) && p.Data().value == old(p.Data().value) + 1
  {
    var _ := p.Invoke(IncrSlot, []);
  }

  /** `set(v)`: `poly_call<1>(*this, v)` */
  method Set(p: Poly, v: int)
    requires HoldsImpl(p)
    modifies p.Data()`value
    ensures HoldsImpl(p) && p.Data() == old(p.Data()) && p.Data().value == v
  {
    var _ := p.Invoke(SetSlot, [v]);
  }

  /** `get() const`: `poly_call<2>(*this)` on a const poly. */
  method Get(p: Poly) returns (r: int)
    requires HoldsImpl(p)
    ensures r == p.Data().value
  {
    r := p.InvokeConst(GetSlot, []);
  }

  /** `decr()`: `poly_call<3>(*this)` */
  method Decr(p: Poly)
    requires HoldsImpl(p)
    modifies p.Data()`value
    ensures HoldsImpl(p) && p.Data() == old(p.Data()) && p.Data().value == old(p.Data().value) - 1
  {
    var _ := p.Invoke(DecrSlot, []);
  }

  /** `mul(v)`: `poly_call<4>(*this, v)`, which leaves the object as it was. */
  method Mul(p: Poly, v: int) returns (r: int)
    requires HoldsImpl(p)
    modifies p.Data()`value
    ensures HoldsImpl(p) && p.Data() == old(p.Data()) && p.Data().value == old(p.Data().value)
    ensures r == v * p.Data().value
  {
    r := p.Invoke(MulSlot, [v]);
  }

  /** The calls the `Owned` and `Alias` tests make on a poly, with what the
      object, `get` and `mul(3)` show after `set(1); incr()` and again after
      `decr()`, whatever the object held before. */
  method SetIncrDecr(p: Poly) returns (value1: int, get1: int, mul1: int, value2: int, get2: int, mul2: int)
    requires HoldsImpl(p)
    modifies p.Data()`value
    ensures HoldsImpl(p) && p.Data() == old(p.Data()) && p.Data().value == value2
    ensures value1 == 2 && get1 == 2 && mul1 == 6
    ensures value2 == 1 && get2 == 1 && mul2 == 3
  {
    var ptr := p.Data();
    Set(p, 1);
    Incr(p);
    value1 := ptr.value;
    get1 := Get(p);
    mul1 := Mul(p, 3);
    Decr(p);
    value2 := ptr.value;
    get2 := Get(p);
    mul2 := Mul(p, 3);
  }

  /** The `Owned` test: the calls change the object the poly owns. */
  method Owned(deduced: bool) returns (value1: int, get1: int, mul1: int, value2: int, get2: int, mul2: int)
    ensures value1 == 2 && get1 == 2 && mul1 == 6
    ensures value2 == 1 && get2 == 1 && mul2 == 3
  {
    var factory := MakeFactory(deduced);
    var poly := new Poly.InPlace(factory, Impl, 0);
    var got := Get(poly);
    assert poly.Data() != null && got == 0;
    value1, get1, mul1, value2, get2, mul2 := SetIncrDecr(poly);
  }

  /** The `Alias` test: the same calls on a poly that aliases an external
      `impl` change that object, and destroying the poly leaves it alive. */
  method Alias(deduced: bool) returns (instance: Cell, value1: int, get1: int, mul1: int, value2: int, get2: int, mul2: int)
    ensures value1 == 2 && get1 == 2 && mul1 == 6
    ensures value2 == 1 && get2 == 1 && mul2 == 3
    ensures instance.live && instance.value == value2
  {
    var factory := MakeFactory(deduced);
    instance := new Cell(Impl.id, 0);
    var poly := new Poly.OfRef(factory, Impl, instance);
    var got := Get(poly);
    assert poly.Data() == instance && got == 0;
    value1, get1, mul1, value2, get2, mul2 := SetIncrDecr(poly);
    assert instance.value == 1 && instance.live;
    poly.Destroy();
  }

  /** The first part of the `Functionalities` test: an empty poly, and
      polys built in place, over a reference and from a value. */
  method FunctionalitiesConstruct(deduced: bool) returns (instance: Cell, bools: seq<bool>, types: seq<TypeId>, aliasData: Cell?)
    ensures bools == [false, true, true, true]
    ensures types == [NoType, Impl.id, Impl.id, Impl.id]
    ensures aliasData == instance
  {
    var factory := MakeFactory(deduced);
    instance := new Cell(Impl.id, 0);
    var empty := new Poly(factory);
    var inPlace := new Poly.InPlace(factory, Impl, 3);
    var alias := new Poly.OfRef(factory, Impl, instance);
    var value := new Poly.InPlace(factory, Impl, 0);
    bools := [empty.Bool(), inPlace.Bool(), alias.Bool(), value.Bool()];
    types := [empty.Type(), inPlace.Type(), alias.Type(), value.Type()];
    aliasData := alias.Data();
  }

  /** The assignment part of the `Functionalities` test: assigning a value
      to the empty poly makes it hold a new object of that type. */
  method FunctionalitiesAssign(deduced: bool) returns (assignedBool: bool, assignedType: TypeId, assignedGet: int)
    ensures assignedBool && assignedType == Impl.id && assignedGet == 0
  {
    var factory := MakeFactory(deduced);
    var empty := new Poly(factory);
    // `empty = impl{}`: the temporary is the by-value parameter
    var temporary := new Poly.InPlace(factory, Impl, 0);
    empty.Assign(temporary);
    assert empty.storage.Content() == Owns(Impl, 0);
    assert empty.Data() != null;
    assignedBool := empty.Bool();
    assignedType := empty.Type();
    assignedGet := Get(empty);
  }

  /** The `emplace` part of the `Functionalities` test, on the poly the
      assignment left holding an `impl` of value zero: it now holds a new
      object, which `get` reads. */
  method FunctionalitiesEmplace(deduced: bool) returns (emplacedBool: bool, emplacedGet: int)
    ensures emplacedBool && emplacedGet == 3
  {
    var factory := MakeFactory(deduced);
    var empty := new Poly.InPlace(factory, Impl, 0);
    empty.Emplace(Impl, 3);
    emplacedBool := empty.Bool();
    emplacedGet := Get(empty);
  }

  /** The swap part of the `Functionalities` test: `std::swap` with an empty
      poly leaves the poly that held the object empty and the other holding
      it. */
  method FunctionalitiesSwap(deduced: bool) returns (swappedBool: bool, otherGet: int)
    ensures !swappedBool && otherGet == 3
  {
    var factory := MakeFactory(deduced);
    var empty := new Poly.InPlace(factory, Impl, 3);
    var none := new Poly(factory);
    Poly.Swap(empty, none);
    swappedBool := empty.Bool();
    assert none.storage.Content() == Owns(Impl, 3);
    otherGet := Get(none);
  }

  /** The part of the `Functionalities` test on the poly built in place:
      `ref` gives a poly with the same object, type and table, and `get`
      reads the object through it; what is set through it is what the
      original then reads. */
  method FunctionalitiesRef(deduced: bool) returns (refGet: int, seenThroughOriginal: int)
    ensures refGet == 3 && seenThroughOriginal == 5
  {
    var factory := MakeFactory(deduced);
    var inPlace := new Poly.InPlace(factory, Impl, 3);
    var ref := inPlace.Ref();
    assert ref.Bool() && ref.Data() != null && ref.Data() == inPlace.Data() && ref.Type() == Impl.id;
    refGet := Get(ref);
    // a change made through the alias is seen through the original
    Set(ref, 5);
    seenThroughOriginal := Get(inPlace);
  }

  /** The copy and move part of the `Functionalities` test: a copy of the
      in-place poly reads the same value, and moving it out leaves it empty. */
  method FunctionalitiesCopyMove(deduced: bool) returns (copyGet: int, moveGet: int, copyBool: bool)
    ensures copyGet == 3 && moveGet == 3 && !copyBool
  {
    var factory := MakeFactory(deduced);
    var inPlace := new Poly.InPlace(factory, Impl, 3);
    var copy := new Poly.Copy(inPlace);
    assert copy.Bool() && copy.storage.Content() == Owns(Impl, 3);
    copyGet := Get(copy);

    var move := new Poly.Move(copy);
    assert move.storage.Content() == Owns(Impl, 3);
    assert move.Bool() && move.Type() == Impl.id;
    moveGet := Get(move);
    copyBool := copy.Bool();
  }
}

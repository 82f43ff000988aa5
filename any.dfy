/**
 * The erased value box `entt::any` (src/entt/core/any.hpp).
 *
 * A box is in one of four modes: empty, owning an object inline in its
 * 16-byte buffer, owning an object on the heap, or aliasing an object that
 * belongs to someone else. The mode is not a field of its own: it is decided
 * by the `basic_vtable<Type>` instantiation the box points to, exactly as in
 * the source, and every behaviour (copy, move, destroy, address, alias, type)
 * goes through the operations of that vtable.
 *
 * Objects are `Cell`s on the Dafny heap. An inline object is a cell too,
 * one per object built in the buffer rather than the buffer itself: moving
 * it builds a new cell and destroys the old one, while a heap or aliased
 * object keeps its cell. The ghost field `live` records whether an object
 * has been destroyed.
 */
module AnyCore {

  /** Runtime type identity; `NoType` is the default `type_info{}`. */
  type TypeId = nat

  const NoType: TypeId := 0

  /** The identity of an object type, never the empty one. */
  type ObjectId = t: TypeId | t != NoType witness 1

  /** What the box needs to know of a concrete object type. */
  datatype TypeDesc = TypeDesc(id: ObjectId, size: nat, nothrowMove: bool)

  /** Size of the inline buffer, `sizeof(double[2])`. */
  const BufferSize: nat := 16

  /** `in_situ<Type>`: the object is stored inline exactly when it fits the
      buffer and its move constructor cannot throw. */
  predicate InSitu(t: TypeDesc)
  {
    t.size <= BufferSize && t.nothrowMove
  }

  /** An object of some concrete type; its state is abstracted to an integer. */
  class Cell {
    const ty: ObjectId
    var value: int
    ghost var live: bool

    constructor (ty: ObjectId, value: int)
      ensures this.ty == ty && this.value == value && live
    {
      this.ty := ty;
      this.value := value;
      live := true;
    }
  }

  /** The cells a nullable pointer designates, for use in frames. */
  function Cells(c: Cell?): set<Cell>
  {
    if c == null then {} else {c}
  }

  /** Which `basic_vtable<Type>` a box points to: `Type = void`, an object
      type, or an lvalue reference to one. */
  datatype VTable = Void | Value(t: TypeDesc) | LRef(t: TypeDesc)

  datatype Mode = Empty | Inline | Heap | Alias

  /** The mode a vtable gives its box: an object type is held inline
      exactly when it fits the buffer and moves without throwing. */
  function ModeOf(vt: VTable): (r: Mode)
    ensures r == Empty <==> vt.Void?
    ensures r == Alias <==> vt.LRef?
    ensures r == Inline <==> vt.Value? && vt.t.size <= BufferSize && vt.t.nothrowMove
    ensures r == Heap <==> vt.Value? && (vt.t.size > BufferSize || !vt.t.nothrowMove)
  {
    match vt
    case Void => Empty
    case Value(t) => if InSitu(t) then Inline else Heap
    case LRef(_) => Alias
  }

  /** What a box holds, seen from outside: nothing, an object of its own with
      its state, or a reference to somebody else's object. */
  datatype Content = Nothing | Owns(t: TypeDesc, value: int) | Refers(t: TypeDesc, referent: Cell)

  /** Box `a` holds what vtable `vt` expects: an owned object is alive, and
      both an owned and a referenced object have the vtable's type. */
  ghost predicate Holds(vt: VTable, a: Any)
    reads a, a.instance
  {
    match vt
    case Void => true
    case Value(t) => a.instance != null && a.instance.ty == t.id && a.instance.live
    case LRef(t) => a.instance != null && a.instance.ty == t.id
  }

  /** The object at `c` if vtable `vt` owns it. */
  function OwnedCell(vt: VTable, c: Cell?): set<Cell>
  {
    if vt.Value? then Cells(c) else {}
  }

  /** The object at `c` if vtable `vt` owns it inline: every move destroys it. */
  function InlineCell(vt: VTable, c: Cell?): set<Cell>
  {
    if ModeOf(vt) == Inline then Cells(c) else {}
  }

  /** The object a box owns inline. */
  ghost function InlineOwned(a: Any): set<Cell>
    reads a
  {
    InlineCell(a.vtable, a.instance)
  }

  /** Between the two states, `c` was destroyed if it is in `killed`, and its
      liveness did not change otherwise. */
  twostate predicate Survives(c: Cell?, killed: set<Cell>)
    reads c
  {
    c != null ==> (c.live <==> old(c.live) && c !in killed)
  }

  /** The `TYPE` operation. */
  function TypeOp(vt: VTable): (r: TypeId)
    ensures r == NoType <==> vt.Void?
    ensures !vt.Void? ==> r == vt.t.id
  {
    match vt
    case Void => NoType
    case Value(t) => t.id
    case LRef(t) => t.id
  }

  /** The `ADDR` operation: the address of the held object, or null. */
  function AddrOp(vt: VTable, from: Any): (p: Cell?)
    reads from, from.instance
    requires Holds(vt, from)
    ensures p == null <==> vt.Void?
    ensures p != null ==> p == from.instance && p.ty == vt.t.id
  {
    if vt.Void? then null else from.instance
  }

  class Any {
    var vtable: VTable
    /** The object's address: a heap or aliased object, or the object
        built in the inline buffer, which in the source shares a union with
        this pointer. */
    var instance: Cell?

    ghost predicate Valid()
      reads this, instance
    {
      Holds(vtable, this)
    }

    ghost function Content(): Content
      reads this, instance
      requires Valid()
    {
      match vtable
      case Void => Nothing
      case Value(t) => Owns(t, instance.value)
      case LRef(t) => Refers(t, instance)
    }

    /** The object this box must destroy, if any. */
    ghost function Owned(): set<Cell>
      reads this
    {
      OwnedCell(vtable, instance)
    }

    /** `type()` */
    function Type(): (r: TypeId)
      reads this
      ensures r == NoType <==> vtable.Void?
      ensures !vtable.Void? ==> r == vtable.t.id
    {
      TypeOp(vtable)
    }

    /** `data()`, both overloads. */
    function Data(): (p: Cell?)
      reads this, instance
      requires Valid()
      ensures p == null <==> vtable.Void?
      ensures p != null ==> p.ty == Type()
    {
      AddrOp(vtable, this)
    }

    /** `operator bool` */
    predicate Bool()
      reads this, instance
      requires Valid()
      ensures Bool() <==> Type() != NoType
    {
      AddrOp(vtable, this) != null
    }

    /** The `COPY` operation: gives `to` its own copy of the object, or the
        same reference. */
    static method CopyOp(vt: VTable, from: Any, to: Any)
      requires from != to && Holds(vt, from)
      modifies to`instance
      ensures vt.Void? ==> to.instance == old(to.instance)
      ensures vt.LRef? ==> to.instance == from.instance
      ensures vt.Value? ==> to.instance != null && fresh(to.instance) && to.instance.live
                            && to.instance.ty == vt.t.id && to.instance.value == from.instance.value
      ensures Holds(vt, to)
    {
      match vt
      case Void =>
      case LRef(_) =>
        to.instance := from.instance;
      case Value(t) =>
        // inline: copy-built in the destination buffer; heap: `new Type{...}`
        to.instance := new Cell(t.id, from.instance.value);
    }

    /** The `MOVE` operation: a heap or aliased object keeps its address; an
        inline object is move-built in the destination and destroyed. */
    static method MoveOp(vt: VTable, from: Any, to: Any)
      requires from != to && Holds(vt, from)
      modifies to`instance, InlineCell(vt, from.instance)`live
      ensures ModeOf(vt) == Empty ==> to.instance == old(to.instance)
      ensures ModeOf(vt) in {Heap, Alias} ==> to.instance == from.instance
      ensures ModeOf(vt) == Inline ==> to.instance != null && fresh(to.instance) && to.instance.live
                                       && to.instance.ty == vt.t.id && to.instance.value == from.instance.value
      ensures Survives(from.instance, InlineCell(vt, from.instance))
      ensures Holds(vt, to)
    {
      match vt
      case Void =>
      case LRef(_) =>
        to.instance := from.instance;
      case Value(t) =>
        if InSitu(t) {
          to.instance := new Cell(t.id, from.instance.value);
          from.instance.live := false;
        } else {
          to.instance := from.instance;
        }
    }

    /** The `DTOR` operation: destroys an owned object, inline or on the heap,
        and leaves a referenced one alone. */
    static method DtorOp(vt: VTable, from: Any)
      requires Holds(vt, from)
      modifies OwnedCell(vt, from.instance)`live
      ensures Survives(from.instance, OwnedCell(vt, from.instance))
    {
      if vt.Value? {
        from.instance.live := false;
      }
    }

    /** The `REF` operation: makes `to` alias the object, or leaves it empty. */
    static method RefOp(vt: VTable, from: Any, to: Any)
      requires from != to && Holds(vt, from)
      modifies to
      ensures vt.Void? ==> to.vtable == old(to.vtable) && to.instance == old(to.instance)
      ensures !vt.Void? ==> to.vtable == LRef(vt.t) && to.instance == from.instance
    {
      match vt
      case Void =>
      case LRef(_) =>
        to.vtable := vt;
        to.instance := from.instance;
      case Value(t) =>
        to.vtable := LRef(t);
        to.instance := from.instance;
    }

    /** Default constructor: an empty box. */
    constructor ()
      ensures Valid() && vtable == Void && instance == null
      ensures Type() == NoType && Data() == null && !Bool()
    {
      vtable := Void;
      instance := null;
    }

    /** In-place construction, and construction from a value of type `t`. */
    constructor InPlace(t: TypeDesc, value: int)
      ensures Valid() && vtable == Value(t) && Content() == Owns(t, value)
      ensures fresh(instance)
      ensures ModeOf(vtable) == if InSitu(t) then Inline else Heap
      ensures Type() == t.id && Data() != null && Bool()
    {
      vtable := Value(t);
      instance := new Cell(t.id, value);
    }

    /** Construction from `std::reference_wrapper`: aliases `referent`. */
    constructor OfRef(t: TypeDesc, referent: Cell)
      requires referent.ty == t.id
      ensures Valid() && vtable == LRef(t) && Content() == Refers(t, referent)
      ensures Owned() == {}
      ensures Type() == t.id && Data() == referent && Bool()
    {
      vtable := LRef(t);
      instance := referent;
    }

    /** Copy constructor. */
    constructor Copy(other: Any)
      requires other.Valid()
      ensures Valid() && vtable == other.vtable && Content() == other.Content()
      ensures vtable.Value? ==> fresh(instance)
      ensures vtable.LRef? ==> instance == other.instance
    {
      vtable := Void;
      instance := null;
      new;
      vtable := other.vtable;
      CopyOp(vtable, other, this);
    }

    /** Move constructor: `other` is left empty. */
    constructor Move(other: Any)
      requires other.Valid()
      modifies other, other.Owned()`live
      ensures Valid() && other.Valid() && other.vtable == Void
      ensures vtable == old(other.vtable) && Content() == old(other.Content())
      ensures ModeOf(vtable) in {Heap, Alias} ==> instance == old(other.instance)
      ensures ModeOf(vtable) == Inline ==> fresh(instance)
      ensures Survives(old(other.instance), old(InlineOwned(other)))
    {
      vtable := Void;
      instance := null;
      new;
      vtable := other.vtable;
      other.vtable := Void;
      MoveOp(vtable, other, this);
    }

    /** Destructor. */
    method Destroy()
      requires Valid()
      modifies Owned()`live
      ensures Survives(instance, Owned())
    {
      DtorOp(vtable, this);
    }

    /** `swap`: three moves through an empty temporary, then the vtables
        change places. Both boxes must be distinct and must not own the same
        object (the source can hold neither). */
    static method Swap(lhs: Any, rhs: Any)
      requires lhs != rhs && lhs.Valid() && rhs.Valid()
      requires lhs.Owned() !! rhs.Owned()
      modifies lhs, rhs, lhs.Owned()`live, rhs.Owned()`live
      ensures lhs.Valid() && rhs.Valid() && lhs.Owned() !! rhs.Owned()
      ensures lhs.vtable == old(rhs.vtable) && rhs.vtable == old(lhs.vtable)
      ensures lhs.Content() == old(rhs.Content()) && rhs.Content() == old(lhs.Content())
      ensures ModeOf(lhs.vtable) in {Heap, Alias} ==> lhs.instance == old(rhs.instance)
      ensures ModeOf(rhs.vtable) in {Heap, Alias} ==> rhs.instance == old(lhs.instance)
      ensures ModeOf(lhs.vtable) == Inline ==> fresh(lhs.instance)
      ensures ModeOf(rhs.vtable) == Inline ==> fresh(rhs.instance)
      ensures lhs.vtable == Void ==> lhs.instance == old(lhs.instance)
      ensures rhs.vtable == Void ==> rhs.instance == old(rhs.instance)
      ensures Survives(old(lhs.instance), old(InlineOwned(lhs) + InlineOwned(rhs)))
      ensures Survives(old(rhs.instance), old(InlineOwned(lhs) + InlineOwned(rhs)))
    {
      var tmp := new Any();
      MoveOp(lhs.vtable, lhs, tmp);
      MoveOp(rhs.vtable, rhs, lhs);
      MoveOp(lhs.vtable, tmp, rhs);
      lhs.vtable, rhs.vtable := rhs.vtable, lhs.vtable;
      // the temporary is left holding nothing, so destroying it does nothing
      assert tmp.vtable == Void;
      tmp.Destroy();
    }

    /** Assignment `operator=(any other)`: `other` is the by-value parameter,
        swapped with this box and destroyed on return. */
    method Assign(other: Any)
      requires this != other && Valid() && other.Valid()
      requires Owned() !! other.Owned()
      modifies this, other, Owned()`live, other.Owned()`live
      ensures Valid() && vtable == old(other.vtable) && Content() == old(other.Content())
      ensures ModeOf(vtable) in {Heap, Alias} ==> instance == old(other.instance)
      ensures ModeOf(vtable) == Inline ==> fresh(instance)
      ensures Survives(old(instance), old(Owned() + InlineOwned(other)))
      ensures Survives(old(other.instance), old(Owned() + InlineOwned(other)))
    {
      Swap(this, other);
      other.Destroy();
    }

    /** `emplace`: assigns a box built in place, which destroys the old
        contents if they were owned. */
    method Emplace(t: TypeDesc, value: int)
      requires Valid()
      modifies this, Owned()`live
      ensures Valid() && vtable == Value(t) && Content() == Owns(t, value)
      ensures fresh(instance) && Type() == t.id
      ensures Survives(old(instance), old(Owned()))
    {
      var tmp := new Any.InPlace(t, value);
      Assign(tmp);
    }

    /** `as_ref`: a box that aliases `other`'s object without owning it. */
    static method AsRef(other: Any) returns (r: Any)
      requires other.Valid()
      ensures fresh(r) && r.Valid() && r.Owned() == {}
      ensures r.Data() == other.Data() && r.Type() == other.Type()
      ensures other.vtable.Void? ==> r.vtable == Void
      ensures !other.vtable.Void? ==> r.vtable == LRef(other.vtable.t)
    {
      r := new Any();
      RefOp(other.vtable, other, r);
    }
  }

  /** The pointer forms of `any_cast<T>`: the object when the box holds a
      `T`, null otherwise. */
  function AnyCastPtr(a: Any, t: ObjectId): (p: Cell?)
    reads a, a.instance
    requires a.Valid()
    ensures p != null <==> a.Type() == t
    ensures p != null ==> p == a.Data() && p.ty == t
  {
    if a.Type() == t then a.Data() else null
  }

  /** The reference forms of `any_cast<T &>`: the box must hold a `T`. */
  function AnyCast(a: Any, t: ObjectId): (c: Cell)
    reads a, a.instance
    requires a.Valid() && a.Type() == t
    ensures c == a.Data() && c.ty == t
  {
    AnyCastPtr(a, t)
  }
}

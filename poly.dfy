/**
 * The wrapper `entt::poly<Concept>` (src/entt/poly/poly.hpp): an `any` for
 * the object and a pointer to the static table of the object's type.
 *
 * Its invariant: the table pointer is null exactly when the storage is
 * empty, and otherwise it points to the table the factory keeps for the
 * stored type. Every operation changes storage and table together.
 */
module PolyCore {
  import opened AnyCore
  import opened PolyVTable

  class Poly {
    /** The `any` member; a poly never shares it with another poly. */
    const storage: Any
    var vtable: TablePtr
    /** The static state of `poly_vtable<Concept>`, shared by all polys of
        the concept. */
    const factory: VTableFactory

    ghost predicate Valid()
      reads this, storage, storage.instance, factory
    {
      && storage.Valid()
      && factory.Valid()
      && (vtable.Null? <==> storage.vtable.Void?)
      && (vtable.Static? ==> vtable.ty == storage.Type() && vtable.ty in factory.cache)
    }

    /** The candidate bound to slot `m` for the stored type. */
    function Binding(m: nat): Candidate
      reads this, storage
      requires !storage.vtable.Void? && m < |factory.Slots()|
      requires factory.Compiles(storage.Type())
    {
      factory.impls(storage.Type())[m]
    }

    /** `type()` */
    function Type(): (r: TypeId)
      reads this, storage, storage.instance, factory
      requires Valid()
      ensures r == NoType <==> vtable.Null?
      ensures vtable.Static? ==> r == vtable.ty
    {
      storage.Type()
    }

    /** `data()`, both overloads. */
    function Data(): (p: Cell?)
      reads this, storage, storage.instance, factory
      requires Valid()
      ensures p == null <==> vtable.Null?
      ensures p != null ==> p.ty == Type()
    {
      storage.Data()
    }

    /** `operator bool`: tests the table pointer, which agrees with the
        storage. */
    predicate Bool()
      reads this, storage, storage.instance, factory
      requires Valid()
      ensures Bool() <==> storage.Bool()
    {
      vtable != Null
    }

    /** Default constructor: empty storage and a null table. */
    constructor (factory: VTableFactory)
      requires factory.Valid()
      ensures Valid() && this.factory == factory && fresh(storage)
      ensures vtable == Null && Type() == NoType && Data() == null && !Bool()
    {
      this.factory := factory;
      storage := new Any();
      vtable := Null;
    }

    /** In-place construction, and construction from a value of type `t`:
        the storage owns a new object and the table is that of `t`. */
    constructor InPlace(factory: VTableFactory, t: TypeDesc, value: int)
      requires factory.Valid() && factory.Compiles(t.id)
      modifies factory
      ensures Valid() && this.factory == factory && Grows(factory)
      ensures fresh(storage) && fresh(storage.instance)
      ensures storage.Content() == Owns(t, value) && vtable == Static(t.id)
      ensures Bool() && Type() == t.id && Data() != null
    {
      this.factory := factory;
      storage := new Any.InPlace(t, value);
      var table := factory.Instance(t.id);
      vtable := table;
    }

    /** Construction from `std::reference_wrapper`: the storage aliases
        `referent` and the table is that of its type. */
    constructor OfRef(factory: VTableFactory, t: TypeDesc, referent: Cell)
      requires factory.Valid() && factory.Compiles(t.id) && referent.ty == t.id
      modifies factory
      ensures Valid() && this.factory == factory && Grows(factory) && fresh(storage)
      ensures storage.Content() == Refers(t, referent) && storage.Owned() == {}
      ensures vtable == Static(t.id)
      ensures Bool() && Type() == t.id && Data() == referent
    {
      this.factory := factory;
      storage := new Any.OfRef(t, referent);
      var table := factory.Instance(t.id);
      vtable := table;
    }

    /** Copy constructor (defaulted): copies the storage, following its mode,
        and the table pointer. */
    constructor Copy(other: Poly)
      requires other.Valid()
      ensures Valid() && factory == other.factory && fresh(storage)
      ensures vtable == other.vtable && storage.Content() == other.storage.Content()
      ensures storage.vtable.Value? ==> fresh(storage.instance)
    {
      factory := other.factory;
      storage := new Any.Copy(other.storage);
      vtable := other.vtable;
    }

    /** Move constructor: an empty poly swapped with `other`. */
    constructor Move(other: Poly)
      requires other.Valid()
      modifies other, other.storage, other.storage.Owned()`live
      ensures Valid() && other.Valid() && factory == other.factory && !other.Bool() && fresh(storage)
      ensures vtable == old(other.vtable) && storage.Content() == old(other.storage.Content())
      ensures ModeOf(storage.vtable) in {Heap, Alias} ==> storage.instance == old(other.storage.instance)
      ensures ModeOf(storage.vtable) == Inline ==> fresh(storage.instance)
      ensures Survives(old(other.storage.instance), old(InlineOwned(other.storage)))
    {
      factory := other.factory;
      storage := new Any();
      vtable := Null;
      new;
      Swap(this, other);
    }

    /** Destructor (defaulted): destroys the storage. */
    method Destroy()
      requires Valid()
      modifies storage.Owned()`live
      ensures Survives(storage.instance, storage.Owned())
    {
      storage.Destroy();
    }

    /** `swap`: exchanges the storages and the table pointers. */
    static method Swap(lhs: Poly, rhs: Poly)
      requires lhs != rhs && lhs.storage != rhs.storage && lhs.factory == rhs.factory
      requires lhs.Valid() && rhs.Valid() && lhs.storage.Owned() !! rhs.storage.Owned()
      modifies lhs, rhs, lhs.storage, rhs.storage, lhs.storage.Owned()`live, rhs.storage.Owned()`live
      ensures lhs.Valid() && rhs.Valid() && lhs.storage.Owned() !! rhs.storage.Owned()
      ensures lhs.vtable == old(rhs.vtable) && rhs.vtable == old(lhs.vtable)
      ensures lhs.storage.Content() == old(rhs.storage.Content())
      ensures rhs.storage.Content() == old(lhs.storage.Content())
      ensures ModeOf(lhs.storage.vtable) in {Heap, Alias} ==> lhs.storage.instance == old(rhs.storage.instance)
      ensures ModeOf(rhs.storage.vtable) in {Heap, Alias} ==> rhs.storage.instance == old(lhs.storage.instance)
      ensures ModeOf(lhs.storage.vtable) == Inline ==> fresh(lhs.storage.instance)
      ensures ModeOf(rhs.storage.vtable) == Inline ==> fresh(rhs.storage.instance)
      ensures Survives(old(lhs.storage.instance), old(InlineOwned(lhs.storage) + InlineOwned(rhs.storage)))
      ensures Survives(old(rhs.storage.instance), old(InlineOwned(lhs.storage) + InlineOwned(rhs.storage)))
    {
      Any.Swap(lhs.storage, rhs.storage);
      lhs.vtable, rhs.vtable := rhs.vtable, lhs.vtable;
    }

    /** Assignment `operator=(poly other)`: `other` is the by-value
        parameter, swapped with this poly and destroyed on return. */
    method Assign(other: Poly)
      requires this != other && storage != other.storage && factory == other.factory
      requires Valid() && other.Valid() && storage.Owned() !! other.storage.Owned()
      modifies this, other, storage, other.storage, storage.Owned()`live, other.storage.Owned()`live
      ensures Valid() && vtable == old(other.vtable) && storage.Content() == old(other.storage.Content())
      ensures ModeOf(storage.vtable) in {Heap, Alias} ==> storage.instance == old(other.storage.instance)
      ensures ModeOf(storage.vtable) == Inline ==> fresh(storage.instance)
      ensures Survives(old(storage.instance), old(storage.Owned() + InlineOwned(other.storage)))
      ensures Survives(old(other.storage.instance), old(storage.Owned() + InlineOwned(other.storage)))
    {
      Swap(other, this);
      other.Destroy();
    }

    /** `emplace`: replaces the object with a new one of type `t` and points
        to the table of `t`. */
    method Emplace(t: TypeDesc, value: int)
      requires Valid() && factory.Compiles(t.id)
      modifies this, storage, storage.Owned()`live, factory
      ensures Valid() && Grows(factory)
      ensures vtable == Static(t.id) && Type() == t.id && storage.Content() == Owns(t, value)
      ensures fresh(storage.instance)
      ensures Survives(old(storage.instance), old(storage.Owned()))
    {
      storage.Emplace(t, value);
      vtable := factory.Instance(t.id);
    }

    /** `ref()`: a new poly that aliases this poly's object through the same
        table and owns nothing. The storage is made with `as_ref`. */
    method Ref() returns (other: Poly)
      requires Valid()
      ensures fresh(other) && fresh(other.storage) && other.Valid() && other.factory == factory
      ensures other.vtable == vtable && other.Type() == Type() && other.Data() == Data()
      ensures other.storage.Owned() == {}
    {
      other := new Poly(factory);
      var alias := Any.AsRef(storage);
      other.storage.Assign(alias);
      other.vtable := vtable;
    }

    /** `invoke<m>` on a mutable poly, which is what `poly_call<m>` calls:
        slot `m` of the current table, given this poly's storage as `any &`,
        does to the object what the type's candidate for `m` does. The
        object must not have been destroyed, which only an aliasing poly
        can see. */
    method Invoke(m: nat, args: seq<int>) returns (r: int)
      requires Valid() && Bool() && m < |factory.Slots()| && |args| == factory.Slots()[m].arity
      requires Data().live
      modifies Data()`value
      ensures Valid() && Data() == old(Data())
      ensures (Data().value, r) == CallEntry(factory.cache[vtable.ty][m], old(Data().value), args)
      ensures (Data().value, r) == Apply(Binding(m), old(Data().value), args)
    {
      CachedTable(factory, vtable.ty, m);
      EntryCastSucceeds(this, m);
      var entry := factory.cache[vtable.ty][m];
      match entry
      case Free(f) =>
        r := f(args);
      case WithSelf(ty, _, body) =>
        var self := AnyCast(storage, ty);
        match body
        case Reads(f) =>
          r := f(self.value, args);
        case Writes(f) =>
          var (state, result) := f(self.value, args);
          self.value := state;
          r := result;
    }

    /** `invoke<m>` on a const poly: the slot must take `const any &`, and
        the object is left as it was. The object must not have been
        destroyed. */
    method InvokeConst(m: nat, args: seq<int>) returns (r: int)
      requires Valid() && Bool() && m < |factory.Slots()| && |args| == factory.Slots()[m].arity
      requires Data().live
      requires factory.Slots()[m].storage == ConstAny
      ensures CallEntry(factory.cache[vtable.ty][m], Data().value, args) == (Data().value, r)
      ensures Apply(Binding(m), Data().value, args) == (Data().value, r)
    {
      CachedTable(factory, vtable.ty, m);
      var entry := factory.cache[vtable.ty][m];
      match entry
      case Free(f) =>
        r := f(args);
      case WithSelf(ty, _, body) =>
        var self := AnyCast(storage, ty);
        match body
        case Reads(f) =>
          r := f(self.value, args);
        case Writes(_) =>
          assert false;
    }
  }

  /** The cast a table entry makes succeeds: an entry of the current table
      that takes the object casts the storage to the type it holds. */
  lemma EntryCastSucceeds(p: Poly, m: nat)
    requires p.Valid() && p.Bool() && m < |p.factory.Slots()|
    ensures m < |p.factory.cache[p.vtable.ty]|
    ensures p.factory.cache[p.vtable.ty][m].WithSelf? ==>
              AnyCastPtr(p.storage, p.factory.cache[p.vtable.ty][m].ty) == p.Data()
  {
  }
}

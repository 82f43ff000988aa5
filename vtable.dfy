/**
 * The static virtual table factory `entt::poly_vtable<Concept>`
 * (src/entt/poly/poly.hpp).
 *
 * A concept lists its slots, either as explicit function types (defined
 * mode) or through the bindings it deduces for the inspector (deduced mode).
 * Each slot becomes a table entry taking the erased storage as `any &` or
 * `const any &`. For a concrete type, `poly_impl<Concept, Type>` supplies one
 * candidate per slot, and the factory fills one entry per slot and keeps the
 * table for the rest of the program, one table per type.
 *
 * Argument and result types are abstracted to integers, and an object's
 * state to the integer held by its cell.
 */
module PolyVTable {
  import opened AnyCore

  /** How a table entry receives the erased storage. */
  datatype StorageRef = MutableAny | ConstAny

  /** The function shapes that `vtable_entry` tells apart. */
  datatype Shape =
    | FreeWithInspector(inspectorConst: bool)  // Ret(*)(inspector &, Args...), Ret(*)(const inspector &, Args...)
    | FreeFunction                             // Ret(*)(Args...)
    | Member(isConst: bool)                    // Ret(inspector:: *)(Args...), Ret(inspector:: *)(Args...) const

  /** A slot's function: its shape and the number of its arguments, the
      object itself not counted. */
  datatype Signature = Signature(shape: Shape, arity: nat)

  /** The type of a table entry: `Ret(*)(any &, Args...)` or
      `Ret(*)(const any &, Args...)`. */
  datatype SlotType = SlotType(storage: StorageRef, arity: nat)

  /** A function type listed by a defined concept, such as `int(int) const`. */
  datatype FnType = FnType(isConst: bool, arity: nat)

  /** A concept: the function types it lists and, for an empty list, the
      signatures of the bindings it gives the inspector. */
  datatype Concept = Concept(declared: seq<FnType>, deduced: seq<Signature>)

  /** `vtable_entry`: the entry takes mutable storage exactly when the slot's
      function may change the object, i.e. it is a non-const member or its
      first parameter is a mutable inspector; the arguments stay as they are. */
  function VTableEntry(s: Signature): (r: SlotType)
    ensures r.storage == MutableAny <==> s.shape == Member(false) || s.shape == FreeWithInspector(false)
    ensures r.arity == s.arity
  {
    match s.shape
    case FreeWithInspector(isConst) => SlotType(if isConst then ConstAny else MutableAny, s.arity)
    case FreeFunction => SlotType(ConstAny, s.arity)
    case Member(isConst) => SlotType(if isConst then ConstAny else MutableAny, s.arity)
  }

  /** `make_vtable`: the entry types of a concept, one per slot. A defined
      concept's function types are read as members of the inspector. */
  function MakeVTable(c: Concept): (slots: seq<SlotType>)
    ensures |c.declared| > 0 ==> |slots| == |c.declared|
    ensures |c.declared| == 0 ==> |slots| == |c.deduced|
    ensures forall i :: 0 <= i < |slots| && |c.declared| > 0 ==>
              slots[i] == SlotType(if c.declared[i].isConst then ConstAny else MutableAny, c.declared[i].arity)
    ensures forall i :: 0 <= i < |slots| && |c.declared| == 0 ==> slots[i] == VTableEntry(c.deduced[i])
  {
    if |c.declared| == 0 then
      seq(|c.deduced|, i requires 0 <= i < |c.deduced| => VTableEntry(c.deduced[i]))
    else
      seq(|c.declared|, i requires 0 <= i < |c.declared| =>
        VTableEntry(Signature(Member(c.declared[i].isConst), c.declared[i].arity)))
  }

  /** What a binding that takes the object does: inspect it through a
      `const Type &`, or update it through a `Type &` (giving the new state
      and the result). */
  datatype SelfBody =
    | Reads(inspect: (int, seq<int>) -> int)
    | Writes(update: (int, seq<int>) -> (int, int))

  /** A candidate supplied by `poly_impl<Concept, Type>` for one slot: a
      function of the arguments alone, or a member function or free function
      whose first parameter is the object. */
  datatype Candidate =
    | Plain(arity: nat, call: seq<int> -> int)
    | OnSelf(arity: nat, body: SelfBody)

  /** What calling candidate `c` on an object in state `v` does: the object's
      new state and the result. */
  function Apply(c: Candidate, v: int, args: seq<int>): (int, int)
  {
    match c
    case Plain(_, f) => (v, f(args))
    case OnSelf(_, Reads(f)) => (v, f(v, args))
    case OnSelf(_, Writes(f)) => f(v, args)
  }

  /** `std::is_invocable_r_v<Ret, Candidate, Args...>` */
  predicate InvocableAlone(c: Candidate, slot: SlotType)
  {
    c.Plain? && c.arity == slot.arity
  }

  /** The candidate accepts the object cast with the entry's constness: a
      `const Type &` binds only to a candidate that inspects. */
  predicate InvocableWithSelf(c: Candidate, slot: SlotType)
  {
    c.OnSelf? && c.arity == slot.arity && (slot.storage == ConstAny ==> c.body.Reads?)
  }

  /** The entry for this candidate compiles. */
  predicate Binds(c: Candidate, slot: SlotType)
  {
    InvocableAlone(c, slot) || InvocableWithSelf(c, slot)
  }

  /** Every slot has a candidate that binds. */
  predicate Satisfies(slots: seq<SlotType>, impl: seq<Candidate>)
  {
    |impl| >= |slots| && forall i :: 0 <= i < |slots| ==> Binds(impl[i], slots[i])
  }

  /** A filled table entry: a direct call, or a call on the storage cast to
      the concrete type `ty` with the entry's constness
      (`any_cast<constness_as_t<Type, Any> &>`). */
  datatype Binding =
    | Free(call: seq<int> -> int)
    | WithSelf(ty: ObjectId, cast: StorageRef, body: SelfBody)

  type Table = seq<Binding>

  /** What entry `b` does when called on storage holding an object in state
      `v`: the object's new state and the result. */
  function CallEntry(b: Binding, v: int, args: seq<int>): (int, int)
  {
    match b
    case Free(f) => (v, f(args))
    case WithSelf(_, _, Reads(f)) => (v, f(v, args))
    case WithSelf(_, _, Writes(f)) => f(v, args)
  }

  /** `fill_vtable_entry`: call the candidate directly when it can be called
      with the arguments alone, otherwise on the storage cast to `ty`. */
  function FillVTableEntry(ty: ObjectId, slot: SlotType, c: Candidate): (b: Binding)
    requires Binds(c, slot)
    ensures b.Free? <==> InvocableAlone(c, slot)
    ensures b.WithSelf? ==> b.ty == ty && b.cast == slot.storage
  {
    if InvocableAlone(c, slot) then Free(c.call) else WithSelf(ty, slot.storage, c.body)
  }

  /** Calling a filled entry does what calling its candidate does, with or
      without the object. */
  lemma EntryCallsCandidate(ty: ObjectId, slot: SlotType, c: Candidate, v: int, args: seq<int>)
    requires Binds(c, slot)
    ensures CallEntry(FillVTableEntry(ty, slot, c), v, args) == Apply(c, v, args)
  {
  }

  /** `fill_vtable`: one entry per slot, in slot order, each from the
      candidate of the same index; candidates past the last slot are unused. */
  function FillVTable(ty: ObjectId, slots: seq<SlotType>, impl: seq<Candidate>): (t: Table)
    requires Satisfies(slots, impl)
    ensures |t| == |slots|
    ensures forall i :: 0 <= i < |slots| ==> t[i] == FillVTableEntry(ty, slots[i], impl[i])
  {
    if slots == [] then []
    else
      var n := |slots| - 1;
      FillVTable(ty, slots[..n], impl) + [FillVTableEntry(ty, slots[n], impl[n])]
  }

  /** An entry that takes `const any &` never changes the object. */
  lemma ConstEntryKeepsState(ty: ObjectId, slots: seq<SlotType>, impl: seq<Candidate>,
                              i: nat, v: int, args: seq<int>)
    requires Satisfies(slots, impl) && i < |slots| && slots[i].storage == ConstAny
    ensures CallEntry(FillVTable(ty, slots, impl)[i], v, args).0 == v
  {
  }

  /** A pointer to a static table: null, or the table the factory keeps for
      type `ty`. Tables are never copied, so a table is known by its type. */
  datatype TablePtr = Null | Static(ty: ObjectId)

  /** Between the two states the cache only gained entries. */
  twostate predicate Grows(f: VTableFactory)
    reads f
  {
    forall ty :: ty in old(f.cache) ==> ty in f.cache && f.cache[ty] == old(f.cache)[ty]
  }

  /** `poly_vtable<Concept>` with its static tables. */
  class VTableFactory {
    const concept: Concept
    /** `poly_impl<Concept, Type>` for every type. */
    const impls: ObjectId -> seq<Candidate>
    /** The static tables built so far, by type. */
    var cache: map<ObjectId, Table>

    /** `poly_vtable<Concept>::type` */
    function Slots(): seq<SlotType>
    {
      MakeVTable(concept)
    }

    /** The concept is satisfied by type `ty`, so its table compiles. */
    predicate Compiles(ty: ObjectId)
    {
      Satisfies(Slots(), impls(ty))
    }

    /** Every cached table is the one `fill_vtable` builds for its type. */
    ghost predicate Valid()
      reads this
    {
      forall ty :: ty in cache ==> Compiles(ty) && cache[ty] == FillVTable(ty, Slots(), impls(ty))
    }

    constructor (concept: Concept, impls: ObjectId -> seq<Candidate>)
      ensures Valid() && this.concept == concept && this.impls == impls && cache == map[]
    {
      this.concept := concept;
      this.impls := impls;
      cache := map[];
    }

    /** `instance<Type>()`: the table is filled on the first call for a type
        and the same table is returned on every call. */
    method Instance(ty: ObjectId) returns (p: TablePtr)
      requires Valid() && Compiles(ty)
      modifies this
      ensures Valid() && p == Static(ty) && ty in cache
      ensures cache.Keys == old(cache.Keys) + {ty}
      ensures ty in old(cache) ==> cache == old(cache)
      ensures Grows(this)
    {
      if ty !in cache {
        cache := cache[ty := FillVTable(ty, Slots(), impls(ty))];
      }
      p := Static(ty);
    }
  }

  /** A cached table has exactly one entry per slot, each filled from the
      type's candidate for that slot and casting, if at all, to that type. */
  lemma CachedTable(f: VTableFactory, ty: ObjectId, i: nat)
    requires f.Valid() && ty in f.cache && i < |f.Slots()|
    ensures |f.cache[ty]| == |f.Slots()|
    ensures f.cache[ty][i] == FillVTableEntry(ty, f.Slots()[i], f.impls(ty)[i])
    ensures f.cache[ty][i].WithSelf? ==> f.cache[ty][i].ty == ty
  {
  }
}

# entt `any` and `poly` in Dafny

A model of the type-erasure pair of the `entt` library:

- `entt::any` (`src/entt/core/any.hpp`) is a box that holds one object of any type. The box is empty, owns its object inline (small buffer), owns it on the heap, or aliases an object that somebody else owns. All of its behaviour goes through one operation switch per type, `basic_vtable<Type>`, with the operations `COPY`, `MOVE`, `DTOR`, `ADDR`, `REF` and `TYPE`.
- `entt::poly<Concept>` (`src/entt/poly/poly.hpp`) pairs an `any` with a pointer to a static table of functions. The table is built by `poly_vtable<Concept>` for the stored type, once per type. `poly_call<M>` calls slot `M` of that table with the storage.

The files:

- `any.dfy` (module `AnyCore`) models the box.
  - Objects are `Cell` heap objects: a type id, an integer state, and a ghost `live` flag that records destruction.
  - `Any` is a class with the source's two fields: `vtable` says which `basic_vtable<T>` the box points to (`Void`, `Value(t)` or `LRef(t)`), and `instance` is the object's address.
  - The mode (empty, inline, heap, alias) is derived from the vtable with `InSitu`, the small-buffer rule.
  - The operation switch is four methods and two functions parameterised by a vtable. This matters because `swap` applies the left box's vtable to the temporary.
  - Ownership is stated with `Owned()`, the cell a box must destroy, and `Survives`, which says which cells a call destroyed and that every other cell kept its liveness. Copies are independent, a reference is never destroyed, and an owned object is destroyed exactly once.
- `vtable.dfy` (module `PolyVTable`) models `poly_vtable`.
  - Slot types come from function shapes (`VTableEntry`, `MakeVTable`).
  - Candidates are what `poly_impl<Concept, Type>` supplies. Table entries are `Free` or `WithSelf` bindings (`FillVTableEntry`, `FillVTable`).
  - `VTableFactory` is a class whose `cache` map holds the static tables. Entries are only ever inserted.
- `poly.dfy` (module `PolyCore`) models `poly`: a class with an `any` and a table pointer.
  - Its invariant: the table pointer is null exactly when the storage is empty, and otherwise names the cached table of the stored type.
  - `Invoke` and `InvokeConst` are `poly_base::invoke` on a mutable and on a const poly.
- `poly_defined.dfy` (module `PolyDefined`) models the five-slot concept of the tests (`incr`, `set`, `get`, `decr`, `mul`) over `impl`, in defined mode and in deduced mode, and the tests' call sequences.

Abstractions:

- Type identities are natural numbers, with 0 as the empty `type_info`.
- An object's state is one integer. Arguments are a sequence of integers and results an integer, with 0 for `void`.
- Raw memory is heap objects. Each object built in the inline buffer is a `Cell` of its own, so an inline move makes a new `Cell` and destroys the old one, while a heap or aliased object keeps its address. The buffer's own address is not kept (see "## Left out").

## Model

| member | source | states |
|---|---|---|
| AnyCore.ModeOf | src/entt/core/any.hpp:23-47 | `in_situ` and the vtable branches: a box is empty exactly for `void`, aliases exactly for `T &`, holds inline exactly when `T` fits the 16-byte buffer and moves without throwing, and on the heap otherwise |
| AnyCore.AddrOp | src/entt/core/any.hpp:27-94 | `ADDR` is null exactly for `basic_vtable<void>`, and otherwise the held object, of the vtable's type |
| AnyCore.TypeOp | src/entt/core/any.hpp:27-94 | `TYPE` gives the empty identity exactly for `basic_vtable<void>`, and the type `T` for `T` and `T &` |
| AnyCore.Any.CopyOp | src/entt/core/any.hpp:27-94 | `COPY`: an owned object is copied into a new live object with the same type and state, inline or on the heap; a reference copies only the address; `void` does nothing |
| AnyCore.Any.MoveOp | src/entt/core/any.hpp:27-94 | `MOVE`: heap and referenced objects keep their address; an inline object is move-built at a new address and the source object is destroyed; nothing else is destroyed |
| AnyCore.Any.DtorOp | src/entt/core/any.hpp:27-94 | `DTOR` destroys the object exactly when the box owns it, inline or on the heap, and never a referenced object |
| AnyCore.Any.RefOp | src/entt/core/any.hpp:27-94 | `REF` makes the target alias the object through `basic_vtable<T &>`, and leaves the target untouched for `void` |
| AnyCore.Any.constructor | src/entt/core/any.hpp:98-101 | a default box is empty: no type, null `data()`, `bool` false |
| AnyCore.Any.InPlace | src/entt/core/any.hpp:109-142 | in-place and by-value construction own a new object of the type with the given state, inline exactly when `InSitu` holds and on the heap otherwise; `type()` is the type, `data()` non-null |
| AnyCore.Any.OfRef | src/entt/core/any.hpp:128-132 | a box over a `reference_wrapper` aliases the referent without owning anything: `data()` is the referent and `type()` its type |
| AnyCore.Any.Copy | src/entt/core/any.hpp:148-153 | the copy has the same vtable and contents; an owned object is a fresh one, a reference is the same address |
| AnyCore.Any.Move | src/entt/core/any.hpp:159-164 | the source is left empty and the new box has its old contents; heap and referenced objects keep their address; only an inline source object is destroyed |
| AnyCore.Any.Destroy | src/entt/core/any.hpp:167-169 | the destructor destroys exactly the owned object and leaves every other object's liveness alone |
| AnyCore.Any.Assign | src/entt/core/any.hpp:176-179 | assignment takes the parameter's contents; the old owned object and the parameter's inline object are destroyed, nothing else |
| AnyCore.Any.Type | src/entt/core/any.hpp:185-189 | `type()` is empty exactly when the box is empty, and otherwise the held type |
| AnyCore.Any.Data | src/entt/core/any.hpp:195-202 | `data()` is null exactly when the box is empty, and otherwise an object of the held type |
| AnyCore.Any.Emplace | src/entt/core/any.hpp:210-213 | after `emplace` the box owns a fresh object of the new type with the given state; only the old owned object is destroyed |
| AnyCore.Any.Bool | src/entt/core/any.hpp:219-221 | `bool` is true exactly when the type is not empty |
| AnyCore.Any.Swap | src/entt/core/any.hpp:228-234 | both boxes stay valid with disjoint ownership, vtables and contents are exchanged, heap and referenced objects keep their address, inline objects are re-built, and only the inline source objects are destroyed |
| AnyCore.Any.AsRef | src/entt/core/any.hpp:241-245 | `as_ref` gives a box that owns nothing, with the same `data()` and `type()`, aliasing through `T &`; an empty box gives an empty box |
| AnyCore.AnyCast | src/entt/core/any.hpp:258-272 | the reference forms of `any_cast<T>` give the held object, which has type `T`, when the box holds a `T` |
| AnyCore.AnyCastPtr | src/entt/core/any.hpp:285-295 | the pointer forms give `data()` exactly when `type()` is `T`, and null otherwise |
| PolyVTable.VTableEntry | src/entt/poly/poly.hpp:60-73 | a slot takes `any &` exactly for a non-const member or a function over a mutable inspector; a const member, a function over a const inspector and a function without inspector take `const any &`; the arguments are kept |
| PolyVTable.MakeVTable | src/entt/poly/poly.hpp:79-86 | a concept with listed function types has one slot per type, read as an inspector member; an empty list gives one slot per deduced binding |
| PolyVTable.FillVTableEntry | src/entt/poly/poly.hpp:88-97 | the entry calls the candidate directly exactly when it is invocable with the arguments alone, and otherwise casts the storage to the table's type with the slot's constness |
| PolyVTable.EntryCallsCandidate | src/entt/poly/poly.hpp:88-97 | calling a filled entry does to the object and returns what calling its candidate does |
| PolyVTable.ConstEntryKeepsState | src/entt/poly/poly.hpp:88-97 | an entry of a `const any &` slot never changes the object |
| PolyVTable.FillVTable | src/entt/poly/poly.hpp:99-104 | the table has exactly one entry per slot, entry `i` filled from candidate `i` |
| PolyVTable.VTableFactory.Instance | src/entt/poly/poly.hpp:115-119 | the table of a type is filled on the first call and the same table is returned afterwards; the cache only gains the entry for that type, and a second call changes nothing |
| PolyVTable.CachedTable | src/entt/poly/poly.hpp:99-119 | a cached table has one entry per slot, each filled from the type's candidate and casting, if at all, to that type |
| PolyCore.Poly.constructor | src/entt/poly/poly.hpp:219-223 | a default poly is empty: null table, empty type, null `data()`, `bool` false |
| PolyCore.Poly.InPlace | src/entt/poly/poly.hpp:231-256 | in-place and by-value construction set the storage and the table of the type together: `bool` true, `type()` the type |
| PolyCore.Poly.OfRef | src/entt/poly/poly.hpp:242-246 | a poly over a reference aliases the referent, owns nothing and points to the referent type's table |
| PolyCore.Poly.Copy | src/entt/poly/poly.hpp:262 | the copy has the same table and storage contents |
| PolyCore.Poly.Move | src/entt/poly/poly.hpp:268-272 | the source is left empty; the new poly has its old table and contents; only the source's inline object is destroyed |
| PolyCore.Poly.Assign | src/entt/poly/poly.hpp:279-282 | assignment takes the parameter's table and contents; only the old owned object and the parameter's inline object are destroyed |
| PolyCore.Poly.Type | src/entt/poly/poly.hpp:288-290 | `type()` is empty exactly when the table pointer is null, and otherwise the table's type |
| PolyCore.Poly.Data | src/entt/poly/poly.hpp:296-303 | `data()` is null exactly when the table pointer is null, and otherwise an object of the stored type |
| PolyCore.Poly.Emplace | src/entt/poly/poly.hpp:311-315 | after `emplace` the poly owns a new object of the type and points to that type's table, so `type()` is the new type |
| PolyCore.Poly.Ref | src/entt/poly/poly.hpp:321-326 | `ref()` gives a new poly with the same table, `type()` and `data()`, owning nothing |
| PolyCore.Poly.Bool | src/entt/poly/poly.hpp:332-334 | `bool` tests the table pointer and agrees with the storage's `bool` |
| PolyCore.Poly.Swap | src/entt/poly/poly.hpp:341-345 | storages and table pointers are exchanged together and both polys stay valid |
| PolyCore.Poly.Destroy | src/entt/poly/poly.hpp:347-349 | destroying a poly destroys exactly the object its storage owns |
| PolyCore.Poly.Invoke | src/entt/poly/poly.hpp:152-156 | `invoke<M>` on a mutable poly, whose object has not been destroyed, calls slot `M` of the current table with the storage, and so does to the object and returns what the type's candidate for `M` does |
| PolyCore.Poly.InvokeConst | src/entt/poly/poly.hpp:145-149 | `invoke<M>` on a const poly, whose object has not been destroyed, needs a `const any &` slot, calls slot `M` of the current table and leaves the object as it was |
| PolyCore.EntryCastSucceeds | src/entt/poly/poly.hpp:88-97 | the cast an entry of the current table makes finds the stored object |
| PolyDefined.MakeFactory | test/entt/poly/poly_defined.cpp:7-32 | the five-slot concept: `get` takes `const any &`; `mul` takes `any &` in defined mode and `const any &` in deduced mode; `impl` satisfies it |
| PolyDefined.Incr | test/entt/poly/poly_defined.cpp:16 | `incr()` adds one to the object |
| PolyDefined.Set | test/entt/poly/poly_defined.cpp:17 | `set(v)` sets the object to `v` |
| PolyDefined.Get | test/entt/poly/poly_defined.cpp:18 | `get()` on a const poly returns the object's value |
| PolyDefined.Decr | test/entt/poly/poly_defined.cpp:19 | `decr()` subtracts one from the object |
| PolyDefined.Mul | test/entt/poly/poly_defined.cpp:20 | `mul(v)` returns `v` times the object and leaves it as it was |
| PolyDefined.SetIncrDecr | test/entt/poly/poly_defined.cpp:113-124 | whatever the object held, `set(1); incr()` gives value and `get()` 2 and `mul(3)` 6; then `decr()` gives 1 and 3 |
| PolyDefined.Owned | test/entt/poly/poly_defined.cpp:103-125 | the same results on a poly that owns its `impl`, in both modes |
| PolyDefined.Alias | test/entt/poly/poly_defined.cpp:127-149 | the same results on a poly over an external `impl`, which ends with value 1 and is still alive after the poly is destroyed |
| PolyDefined.FunctionalitiesConstruct | test/entt/poly/poly_defined.cpp:43-62 | empty, in-place, alias and by-value polys: `bool` false, true, true, true; type empty then `impl` three times; the alias's `data()` is the external object |
| PolyDefined.FunctionalitiesAssign | test/entt/poly/poly_defined.cpp:64-70 | assigning `impl{}` to an empty poly makes it hold an `impl` whose `get()` is 0 |
| PolyDefined.FunctionalitiesEmplace | test/entt/poly/poly_defined.cpp:72-75 | `emplace<impl>(3)` gives `get()` 3 |
| PolyDefined.FunctionalitiesRef | test/entt/poly/poly_defined.cpp:77-84 | `ref()` of an in-place poly shares its object: `get()` is 3, and a `set` through the alias is read through the original |
| PolyDefined.FunctionalitiesSwap | test/entt/poly/poly_defined.cpp:86-89 | swapping with an empty poly empties the poly and moves its object to the other |
| PolyDefined.FunctionalitiesCopyMove | test/entt/poly/poly_defined.cpp:91-100 | a copy reads 3; moving out of the copy gives a poly reading 3 and leaves the copy empty |

The deduced-mode concept `Clazz` of `test/entt/poly/poly.cpp` is `PolyDefined.Deduced` with bindings `PolyDefined.DeducedImpl`. Every scenario above runs in both modes through its `deduced` parameter.

## Left out

- Compile-time machinery is not modelled: the `poly_inspector` conversion trick, `decltype`-based table types and `index_sequence` expansion. Signatures, slots and candidates are explicit datatypes. In deduced mode, the signatures of the inspector's bindings are given directly.
- Byte-level memory is not modelled: `aligned_storage`, placement new, `launder` and the union of `instance` and `storage`.
- Integer and pointer widths: integers are unbounded, and an object's state is one `int`.
- Floating point is not modelled. `mul` goes through `double` in the source and is modelled with integer multiplication.
- `type_info` internals are not modelled; a type is a natural number.
- `TypeDesc` stands for a type's size and the `noexcept` of its move constructor. Only the small-buffer decision reads them.
- Construction with `in_place_type<void>` is not modelled. `TypeDesc` only names object types.
- The rvalue form of `any_cast` (src/entt/core/any.hpp:276-281) moves out of the object. With integer states it gives the same value as the reference forms and is not modelled separately.
- AnyCore.Any.Swap: requires two distinct boxes that do not own the same object. Self-swap is not modelled, because the source would move an inline object onto itself.
- PolyCore.Poly.Swap, PolyCore.Poly.Assign: require distinct polys with distinct storages over the same concept. The source passes assignment's parameter by value, so it is always a separate poly.
- PolyCore.Poly.Invoke, PolyCore.Poly.InvokeConst: require a non-empty poly. The source dereferences a null table pointer on an empty poly, so the behaviour is undefined.
- PolyCore.Poly.Invoke, PolyCore.Poly.InvokeConst: require that the object has not been destroyed. Only a poly that aliases can hold a destroyed object, and calling through a dangling reference is undefined in the source. This also excludes calls through an alias of an inline object that has since been replaced (see the next lines).
- AnyCore.Any.Swap: the address identity of the inline buffer is not kept. In the source, `data()` of an inline box is the box's own buffer for the box's whole life. In the model, every object built in the buffer is a new `Cell`, so a swap gives the box a fresh address. A reference taken earlier through `as_ref` or `ref()` sees its object destroyed rather than seeing the buffer's new occupant.
- AnyCore.Any.Assign: the address identity of the inline buffer is not kept, as for `AnyCore.Any.Swap`.
- AnyCore.Any.Emplace: the address identity of the inline buffer is not kept, as for `AnyCore.Any.Swap`.
- AnyCore.Any.Move: the address identity of the inline buffer is not kept, as for `AnyCore.Any.Swap`.
- PolyCore.Poly.Emplace: the address identity of the inline buffer is not kept, as for `AnyCore.Any.Swap`.
- PolyCore.Poly.Swap, PolyCore.Poly.Assign, PolyCore.Poly.Move: the address identity of the inline buffer is not kept, as for `AnyCore.Any.Swap`.
- AnyCore.Any.Copy, AnyCore.Any.InPlace, AnyCore.Any.Emplace: exceptions are not modelled, so these always succeed. In the source, `new Type{...}` (src/entt/core/any.hpp:73, 118) and a user type's copy or in-place construction (src/entt/core/any.hpp:52, 116) can throw, and so can `operator=` through the copy of its by-value parameter. The same holds for the poly operations built on them. A consequence is not modelled either: the copy constructor (src/entt/core/any.hpp:148-153) delegates to `any{}` and then sets `vtable`, so if an inline type's copy throws, `~any` runs `DTOR` on a buffer that holds no object.
- PolyCore.Poly.Ref: the source calls `storage.ref()`, which `src/entt/core/any.hpp` does not declare. The model builds the storage with the friend `as_ref`, which gives what `ref()` promises.
- Thread-safe initialisation of the static tables is not modelled. The cache is a sequential map that is inserted into once per type.
- In `PolyDefined`, the tests' `std::swap(empty, null)` is modelled with the poly's own `swap`. The generic `std::swap` reaches the same state through a move construction and two assignments. The `Functionalities` test is modelled in parts, each starting from the state the previous part leaves behind.
- `src/entt/entity/poly_storage.hpp` only declares a concept over the registry and is not part of this model.
- The gtest harness, `ENTT_ASSERT` and `ENTT_NOEXCEPT` are not modelled.

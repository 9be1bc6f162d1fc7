/**
  `fixed_size_function<Ret(Args...), MaxSize>`: a type-erased callable held in
  inline storage, driven by a four-entry operation table.

  A wrapper value is the whole object state. `A` stands for the argument pack,
  `R` for `Ret`, and `cap` for `MaxSize`, the capacity of `storage_` in bytes.
  Every transition is a pure function that returns the new state(s) together
  with the object-lifetime events it performed through the table.
 */
module FixedSizeFunction {
  import opened Optional
  import opened Functors

  /** The object state: `call_`, `destroy_`, `copy_`, `move_` and `storage_`.
      An entry `Some(t)` is the address of the `*_impl<t>` instantiation for functor type `t`;
      `storage` is the callable object alive in `storage_`, if any, whether or not
      the table still refers to it. */
  datatype Wrapper<!A, R> = Wrapper(
    cap: nat,
    callEntry: Option<FunctorType>,
    destroyEntry: Option<FunctorType>,
    copyEntry: Option<FunctorType>,
    moveEntry: Option<FunctorType>,
    storage: Option<Callable<A, R>>)

  /** The error `operator()` throws on an empty wrapper (`std::bad_function_call`). */
  datatype Failure = BadFunctionCall

  /** What an invocation does: return a value, or throw. */
  datatype Outcome<R> = Returned(value: R) | Threw(error: Failure)

  /** All four table entries are null. */
  predicate Unbound<A, R>(w: Wrapper<A, R>)
  {
    w.callEntry.None? && w.destroyEntry.None? && w.copyEntry.None? && w.moveEntry.None?
  }

  /** All four table entries point at the instantiations for functor type `t`. */
  predicate BoundTo<A, R>(w: Wrapper<A, R>, t: FunctorType)
  {
    w.callEntry == Some(t) && w.destroyEntry == Some(t) && w.copyEntry == Some(t) && w.moveEntry == Some(t)
  }

  /** The class invariant: the table is all null exactly when the storage is
      empty, otherwise all four entries belong to the type of the object in the
      storage, and that object fits in `MaxSize` bytes. */
  predicate Wf<A, R>(w: Wrapper<A, R>): (b: bool)
    ensures b ==> (w.callEntry.None? <==> w.storage.None?) && (w.destroyEntry.None? <==> w.storage.None?)
    ensures b && w.storage.Some? ==> w.storage.value.ty.size <= w.cap && w.destroyEntry == Some(w.storage.value.ty)
  {
    match w.storage
    case None => Unbound(w)
    case Some(obj) => BoundTo(w, obj.ty) && obj.ty.size <= w.cap
  }

  /** The live objects a wrapper owns (zero or one), by type: the object in the
      storage, provided `destroy_` is set, so that `reset` or the destructor will
      destroy it. An object left in the storage under a null `destroy_` is owned by nobody. */
  function Owned<A, R>(w: Wrapper<A, R>): multiset<FunctorType>
  {
    match w.storage
    case None => multiset{}
    case Some(obj) => if w.destroyEntry.Some? then multiset{obj.ty} else multiset{}
  }

  // ---------------------------------------------------------------------------
  // Observers

  /** `explicit operator bool`: tests `call_`. For a well-formed wrapper this is
      exactly "a callable is held". */
  function Populated<A, R>(w: Wrapper<A, R>): (b: bool)
    ensures Wf(w) ==> (b <==> w.storage.Some?)
    ensures Wf(w) ==> (b <==> !Unbound(w))
  {
    w.callEntry.Some?
  }

  /** `f == nullptr` and `nullptr == f` (both argument orders have the same body). */
  function EqualsNull<A, R>(w: Wrapper<A, R>): (b: bool)
    ensures b <==> !Populated(w)
    ensures Wf(w) ==> (b <==> w.storage.None? && Unbound(w))
  {
    !Populated(w)
  }

  /** `f != nullptr` and `nullptr != f`, corrected to `return static_cast<bool>(f);`:
      the negation of `f == nullptr`. */
  function NotEqualsNull<A, R>(w: Wrapper<A, R>): (b: bool)
    ensures b <==> !EqualsNull(w)
    ensures Wf(w) ==> (b <==> w.storage.Some?)
    ensures ToBool(w, true) == Some(b)
  {
    Populated(w)
  }

  // ---------------------------------------------------------------------------
  // Conversion to `bool`, and `operator!=` as written

  /** A conversion function of the wrapper to `bool`: whether it is declared
      `explicit`, and the value it yields. */
  datatype BoolConversion = BoolConversion(isExplicit: bool, value: bool)

  /** The class declares one conversion to `bool`, `explicit operator bool`. */
  function BoolConversions<A, R>(w: Wrapper<A, R>): (cs: seq<BoolConversion>)
    ensures |cs| == 1 && cs[0].isExplicit && (cs[0].value <==> Populated(w))
  {
    [BoolConversion(true, Populated(w))]
  }

  /** The first conversion function a conversion of `w` to `bool` may use, if any.
      `withExplicit` holds for direct-initialisation (`static_cast<bool>(f)`) and
      contextual conversion (`!f`, `if (f)`), which consider `explicit`
      conversion functions; it fails for copy-initialisation (`return f;` in a
      function returning `bool`), which considers only the others. */
  function ToBool<A, R>(w: Wrapper<A, R>, withExplicit: bool): (r: Option<bool>)
    ensures r.Some? <==> exists i :: 0 <= i < |BoolConversions(w)| && (withExplicit || !BoolConversions(w)[i].isExplicit)
    ensures r.Some? ==> (r.value <==> Populated(w))
  {
    var cs := BoolConversions(w);
    if withExplicit || !cs[0].isExplicit then Some(cs[0].value) else None
  }

  /** `operator!=` against `nullptr` as written: `return f;` copy-initialises the
      `bool` result from the wrapper, which only an implicit conversion could do,
      so neither argument order yields a value: the program is rejected as soon
      as either is used. */
  function NotEqualsNullAsWritten<A, R>(w: Wrapper<A, R>): (r: Option<bool>)
    ensures r == None
  {
    ToBool(w, false)
  }

  /** The discrepancy: `operator!=` as written has no meaning for any wrapper,
      while the corrected one is defined for all and is the negation of `==`. */
  lemma NotEqualsNullAsWrittenRejected<A, R>(w: Wrapper<A, R>)
    ensures NotEqualsNullAsWritten(w).None?
    ensures ToBool(w, true) == Some(NotEqualsNull(w)) == Some(!EqualsNull(w))
  {
  }

  /** `operator()`: dispatches through `call_` (that is, `call_impl<t>` on the
      object in the storage) or throws when `call_` is null. */
  function Invoke<A, R>(w: Wrapper<A, R>, a: A): (r: Outcome<R>)
    requires w.callEntry.Some? ==> w.storage.Some?
    ensures r.Threw? <==> !Populated(w)
    ensures r.Threw? ==> r.error == BadFunctionCall
    ensures w.callEntry.Some? ==> r == Returned(w.storage.value.fn(a))
    ensures Wf(w) && w.storage.Some? ==> r == Returned(w.storage.value.fn(a))
  {
    if w.callEntry.Some? then Returned(w.storage.value.fn(a)) else Threw(BadFunctionCall)
  }

  // ---------------------------------------------------------------------------
  // Construction, reset, destruction

  /** The default constructor and the `nullptr_t` constructor: all four entries null. */
  function Empty<A, R>(cap: nat): (w: Wrapper<A, R>)
    ensures Wf(w) && w.cap == cap
    ensures Unbound(w) && !Populated(w) && EqualsNull(w) && !NotEqualsNull(w)
    ensures Owned(w) == multiset{}
  {
    Wrapper(cap, None, None, None, None, None)
  }

  /** Private `create`: placement-constructs the functor in the storage and binds
      the four entries to its type, without looking at what was there. The
      `static_assert` on the functor's size is the precondition. */
  function Create<A, R>(w: Wrapper<A, R>, f: Callable<A, R>): (r: (Wrapper<A, R>, seq<Effect>))
    requires f.ty.size <= w.cap
    ensures Wf(r.0) && r.0.cap == w.cap
    ensures BoundTo(r.0, f.ty) && r.0.storage == Some(f)
    ensures Populated(r.0)
    ensures r.1 == [Constructed(f.ty)]
    ensures w.storage.None? ==> Balanced(Owned(w), r.1, Owned(r.0))
  {
    Birth(Constructed(f.ty));
    (Wrapper(w.cap, Some(f.ty), Some(f.ty), Some(f.ty), Some(f.ty), Some(f)), [Constructed(f.ty)])
  }

  /** The converting constructor from a functor. The table is left uninitialised
      before `create`, which overwrites all of it, so the starting state does not matter. */
  function FromFunctor<A, R>(cap: nat, f: Callable<A, R>): (r: (Wrapper<A, R>, seq<Effect>))
    requires f.ty.size <= cap
    ensures Wf(r.0) && r.0.cap == cap && Populated(r.0) && r.0.storage == Some(f)
    ensures r.1 == [Constructed(f.ty)]
    ensures Balanced(multiset{}, r.1, Owned(r.0))
  {
    Create(Empty(cap), f)
  }

  /** `reset`: when `destroy_` is set, destroys the held object through it and
      nulls the four entries; otherwise nothing happens. */
  function Reset<A, R>(w: Wrapper<A, R>): (r: (Wrapper<A, R>, seq<Effect>))
    ensures r.0.cap == w.cap
    ensures w.destroyEntry.Some? ==> Unbound(r.0) && r.0.storage.None?
    ensures w.destroyEntry.None? ==> r.0 == w && r.1 == []
    ensures Wf(w) ==> r.0 == Empty(w.cap)
    ensures Wf(w) ==> r.1 == (if Populated(w) then [Destroyed(w.storage.value.ty)] else [])
    ensures Wf(w) ==> Balanced(Owned(w), r.1, Owned(r.0))
  {
    if w.destroyEntry.Some? then
      Death(w.destroyEntry.value);
      (Wrapper(w.cap, None, None, None, None, None), [Destroyed(w.destroyEntry.value)])
    else
      (w, [])
  }

  /** Assignment from `nullptr`: the same as `reset`. */
  function AssignNull<A, R>(w: Wrapper<A, R>): (r: (Wrapper<A, R>, seq<Effect>))
    requires Wf(w)
    ensures r.0 == Empty(w.cap) && EqualsNull(r.0)
    ensures Populated(w) <==> r.1 != []
    ensures Balanced(Owned(w), r.1, multiset{})
  {
    Reset(w)
  }

  /** The destructor: the events `reset` performs on the way out. Nothing the
      wrapper owned outlives it. */
  function Destruct<A, R>(w: Wrapper<A, R>): (e: seq<Effect>)
    requires Wf(w)
    ensures Balanced(Owned(w), e, multiset{})
    ensures |e| == |Owned(w)|
  {
    Reset(w).1
  }

  // ---------------------------------------------------------------------------
  // Copy

  /** Private `copy`: when the source's `copy_` is set, copy-constructs the
      source's object into this storage through it and copies all four entries;
      otherwise this wrapper is left as it is. */
  function CopyInto<A, R>(dst: Wrapper<A, R>, src: Wrapper<A, R>): (r: (Wrapper<A, R>, seq<Effect>))
    requires Wf(src) && dst.cap == src.cap
    ensures Populated(src) ==> r.0 == src && r.1 == [CopyConstructed(src.storage.value.ty)]
    ensures !Populated(src) ==> r == (dst, [])
    ensures Wf(dst) ==> Wf(r.0)
    ensures dst.storage.None? ==> Balanced(Owned(dst), r.1, Owned(r.0))
  {
    if src.copyEntry.Some? then
      ApplyEvent(Owned(dst), CopyConstructed(src.copyEntry.value));
      assert dst.storage.None? ==> Owned(dst) + multiset{src.copyEntry.value} == multiset{src.copyEntry.value};
      (Wrapper(dst.cap, src.callEntry, src.destroyEntry, src.copyEntry, src.moveEntry, src.storage),
       [CopyConstructed(src.copyEntry.value)])
    else
      (dst, [])
  }

  /** The copy constructor, from a populated source. The source must be
      populated: from an empty source the table would stay uninitialised. */
  function CopyConstruct<A, R>(src: Wrapper<A, R>): (r: (Wrapper<A, R>, seq<Effect>))
    requires Wf(src) && Populated(src)
    ensures Wf(r.0) && r.0 == src
    ensures r.1 == [CopyConstructed(src.storage.value.ty)]
    ensures Balanced(multiset{}, r.1, Owned(r.0))
  {
    CopyInto(Empty(src.cap), src)
  }

  /** Copy assignment between two distinct wrappers (`assign(src)`): `reset`, then `copy`. */
  function AssignCopy<A, R>(dst: Wrapper<A, R>, src: Wrapper<A, R>): (r: (Wrapper<A, R>, seq<Effect>))
    requires Wf(src) && dst.cap == src.cap
    ensures Wf(dst) ==> Wf(r.0)
    ensures Wf(dst) ==> r.0 == (if Populated(src) then src else Empty(dst.cap))
    ensures Wf(dst) ==> r.1 == (if Populated(dst) then [Destroyed(dst.storage.value.ty)] else [])
                              + (if Populated(src) then [CopyConstructed(src.storage.value.ty)] else [])
    ensures Wf(dst) ==> Balanced(Owned(dst), r.1, Owned(r.0))
  {
    var (w1, e1) := Reset(dst);
    var (w2, e2) := CopyInto(w1, src);
    if Wf(dst) then
      BalancedThen(Owned(dst), e1, Owned(w1), e2, Owned(w2));
      (w2, e1 + e2)
    else
      (w2, e1 + e2)
  }

  /** Copy assignment of a wrapper to itself: `reset` nulls `copy_` before `copy`
      reads it, so the wrapper ends up empty and its object destroyed. */
  function SelfAssignCopy<A, R>(w: Wrapper<A, R>): (r: (Wrapper<A, R>, seq<Effect>))
    requires Wf(w)
    ensures r.0 == Empty(w.cap) && !Populated(r.0)
    ensures r.1 == (if Populated(w) then [Destroyed(w.storage.value.ty)] else [])
    ensures Balanced(Owned(w), r.1, multiset{})
  {
    var (w1, e1) := Reset(w);
    var (w2, e2) := CopyInto(w1, w1);
    (w2, e1 + e2)
  }

  // ---------------------------------------------------------------------------
  // Move

  /** Private `move`: when the source's `move_` is set, move-constructs the
      source's object into this storage through it, takes over the four entries
      and nulls them in the source; otherwise both are left as they are.
      This is the corrected version: the moved-from object left in the source's
      storage is destroyed (see `MoveFromAsWritten`). */
  function MoveFrom<A, R>(dst: Wrapper<A, R>, src: Wrapper<A, R>): (r: (Wrapper<A, R>, Wrapper<A, R>, seq<Effect>))
    requires Wf(src) && dst.cap == src.cap
    ensures Populated(src) ==> r.0 == src && r.1 == Empty(src.cap)
    ensures !Populated(src) ==> r == (dst, src, [])
    ensures Wf(dst) ==> Wf(r.0) && Wf(r.1)
    ensures dst.storage.None? ==> Balanced(Owned(dst) + Owned(src), r.2, Owned(r.0) + Owned(r.1))
  {
    if src.moveEntry.Some? then
      var t := src.moveEntry.value;
      var taken := Wrapper(dst.cap, src.callEntry, src.destroyEntry, src.copyEntry, src.moveEntry, src.storage);
      var left := Wrapper(src.cap, None, None, None, None, None);
      Relocation(t);
      assert dst.storage.None? ==> Owned(dst) + Owned(src) == multiset{t} == Owned(taken) + Owned(left);
      (taken, left, [MoveConstructed(t), Destroyed(t)])
    else
      (dst, src, [])
  }

  /** The move constructor, from a populated source (an empty source would leave
      the table uninitialised). The new wrapper takes the source's state; the
      source is left empty. */
  function MoveConstruct<A, R>(src: Wrapper<A, R>): (r: (Wrapper<A, R>, Wrapper<A, R>, seq<Effect>))
    requires Wf(src) && Populated(src)
    ensures Wf(r.0) && r.0 == src
    ensures Wf(r.1) && r.1 == Empty(src.cap) && !Populated(r.1)
    ensures r.2 == [MoveConstructed(src.storage.value.ty), Destroyed(src.storage.value.ty)]
    ensures Balanced(Owned(src), r.2, Owned(r.0) + Owned(r.1))
  {
    assert Owned(Empty<A, R>(src.cap)) + Owned(src) == Owned(src);
    MoveFrom(Empty(src.cap), src)
  }

  /** Move assignment between two distinct wrappers (`assign(src&&)`): `reset`, then `move`. */
  function AssignMove<A, R>(dst: Wrapper<A, R>, src: Wrapper<A, R>): (r: (Wrapper<A, R>, Wrapper<A, R>, seq<Effect>))
    requires Wf(src) && dst.cap == src.cap
    ensures Wf(dst) ==> Wf(r.0) && Wf(r.1)
    ensures Wf(dst) ==> r.0 == (if Populated(src) then src else Empty(dst.cap))
    ensures Wf(dst) && Populated(src) ==> r.1 == Empty(src.cap)
    ensures !Populated(src) ==> r.1 == src
    ensures Wf(dst) ==> r.2 == (if Populated(dst) then [Destroyed(dst.storage.value.ty)] else [])
                              + (if Populated(src) then [MoveConstructed(src.storage.value.ty), Destroyed(src.storage.value.ty)] else [])
    ensures Wf(dst) ==> Balanced(Owned(dst) + Owned(src), r.2, Owned(r.0) + Owned(r.1))
  {
    var (w1, e1) := Reset(dst);
    var (d2, s2, e2) := MoveFrom(w1, src);
    if Wf(dst) then
      ApplyFrame(Owned(src), Owned(dst), e1);
      assert Owned(src) + Owned(dst) == Owned(dst) + Owned(src);
      assert Owned(src) + Owned(w1) == Owned(w1) + Owned(src);
      BalancedThen(Owned(dst) + Owned(src), e1, Owned(w1) + Owned(src), e2, Owned(d2) + Owned(s2));
      (d2, s2, e1 + e2)
    else
      (d2, s2, e1 + e2)
  }

  /** Move assignment of a wrapper to itself: `reset` nulls `move_` before `move`
      reads it, so the wrapper ends up empty and its object destroyed. */
  function SelfAssignMove<A, R>(w: Wrapper<A, R>): (r: (Wrapper<A, R>, seq<Effect>))
    requires Wf(w)
    ensures r.0 == Empty(w.cap) && !Populated(r.0)
    ensures r.1 == (if Populated(w) then [Destroyed(w.storage.value.ty)] else [])
    ensures Balanced(Owned(w), r.1, multiset{})
  {
    var (w1, e1) := Reset(w);
    var (d2, s2, e2) := MoveFrom(w1, w1);
    (s2, e1 + e2)
  }

  // ---------------------------------------------------------------------------
  // Assignment from a functor, swap

  /** Assignment from a functor (`assign(f)`): `reset`, then `create`. */
  function AssignFunctor<A, R>(w: Wrapper<A, R>, f: Callable<A, R>): (r: (Wrapper<A, R>, seq<Effect>))
    requires Wf(w) && f.ty.size <= w.cap
    ensures Wf(r.0) && r.0.cap == w.cap && r.0.storage == Some(f)
    ensures r.1 == (if Populated(w) then [Destroyed(w.storage.value.ty)] else []) + [Constructed(f.ty)]
    ensures Balanced(Owned(w), r.1, Owned(r.0))
  {
    var (w1, e1) := Reset(w);
    var (w2, e2) := Create(w1, f);
    BalancedThen(Owned(w), e1, Owned(w1), e2, Owned(w2));
    (w2, e1 + e2)
  }

  /** Member `swap` (and the free `swap`): exchanges the four entries and the
      storage bytes, one field at a time. No object is constructed or destroyed. */
  function Swap<A, R>(a: Wrapper<A, R>, b: Wrapper<A, R>): (r: (Wrapper<A, R>, Wrapper<A, R>))
    requires a.cap == b.cap
    ensures r.0 == b && r.1 == a
    ensures Owned(r.0) + Owned(r.1) == Owned(a) + Owned(b)
  {
    (Wrapper(a.cap, b.callEntry, b.destroyEntry, b.copyEntry, b.moveEntry, b.storage),
     Wrapper(b.cap, a.callEntry, a.destroyEntry, a.copyEntry, a.moveEntry, a.storage))
  }

  // ---------------------------------------------------------------------------
  // Properties relating several operations

  /** Every transition keeps the class invariant. */
  lemma TransitionsPreserveWf<A, R>(w: Wrapper<A, R>, v: Wrapper<A, R>, f: Callable<A, R>)
    requires Wf(w) && Wf(v) && w.cap == v.cap
    ensures Wf(Reset(w).0) && Wf(AssignNull(w).0)
    ensures f.ty.size <= w.cap ==> Wf(AssignFunctor(w, f).0)
    ensures Wf(AssignCopy(w, v).0) && Wf(SelfAssignCopy(w).0)
    ensures Wf(AssignMove(w, v).0) && Wf(AssignMove(w, v).1) && Wf(SelfAssignMove(w).0)
    ensures Wf(Swap(w, v).0) && Wf(Swap(w, v).1)
  {
  }

  /** Calling: an empty wrapper (default-constructed, reset, or moved from) throws;
      a wrapper holding a functor returns what the functor returns, also after
      the functor has been copied or moved into another wrapper. */
  lemma InvokeAfterTransitions<A, R>(w: Wrapper<A, R>, v: Wrapper<A, R>, f: Callable<A, R>, a: A)
    requires Wf(w) && Wf(v) && w.cap == v.cap && f.ty.size <= w.cap
    ensures Invoke(Empty<A, R>(w.cap), a) == Threw(BadFunctionCall)
    ensures Invoke(Reset(w).0, a) == Threw(BadFunctionCall)
    ensures Invoke(FromFunctor(w.cap, f).0, a) == Returned(f.fn(a))
    ensures Invoke(AssignFunctor(w, f).0, a) == Returned(f.fn(a))
    ensures Populated(v) ==> Invoke(CopyConstruct(v).0, a) == Invoke(v, a)
    ensures Populated(v) ==> Invoke(MoveConstruct(v).0, a) == Invoke(v, a)
    ensures Populated(v) ==> Invoke(MoveConstruct(v).1, a) == Threw(BadFunctionCall)
    ensures Invoke(AssignCopy(w, v).0, a) == Invoke(v, a) || !Populated(v)
    ensures Populated(v) ==> Invoke(AssignMove(w, v).0, a) == Invoke(v, a)
    ensures Populated(v) ==> Invoke(MoveConstructAsWritten(v).0, a) == Invoke(v, a)
    ensures Populated(v) ==> Invoke(MoveConstructAsWritten(v).1, a) == Threw(BadFunctionCall)
  {
  }

  /** `reset` is idempotent, and a no-op on an empty wrapper. */
  lemma ResetIdempotent<A, R>(w: Wrapper<A, R>)
    requires Wf(w)
    ensures Reset(Reset(w).0) == (Reset(w).0, [])
    ensures !Populated(w) ==> Reset(w) == (w, [])
  {
  }

  /** Swapping twice restores both wrappers, whatever their emptiness. */
  lemma SwapInvolution<A, R>(a: Wrapper<A, R>, b: Wrapper<A, R>)
    requires a.cap == b.cap
    ensures Swap(Swap(a, b).0, Swap(a, b).1) == (a, b)
  {
  }

  /** Moving a wrapper into an empty one and back restores both (with the corrected move). */
  lemma MoveRoundTrip<A, R>(a: Wrapper<A, R>, b: Wrapper<A, R>)
    requires Wf(a) && Wf(b) && a.cap == b.cap && !Populated(b)
    ensures var (b1, a1, _) := AssignMove(b, a);
            var (a2, b2, _) := AssignMove(a1, b1);
            a2 == a && b2 == b
  {
  }

  /** Assigning a functor forgets everything the wrapper held before: the result
      depends only on the capacity and the functor. */
  lemma AssignFunctorForgetsPrior<A, R>(w: Wrapper<A, R>, v: Wrapper<A, R>, f: Callable<A, R>)
    requires Wf(w) && Wf(v) && w.cap == v.cap && f.ty.size <= w.cap
    ensures AssignFunctor(w, f).0 == AssignFunctor(v, f).0 == FromFunctor(w.cap, f).0
  {
  }

  // ---------------------------------------------------------------------------
  // The move as written: the moved-from object is never destroyed

  /** Private `move` as written: after `move_` has move-constructed the object
      into this storage, the source's four entries are nulled without `destroy_`
      being called, so the moved-from object stays alive in the source's storage
      under a null table. */
  function MoveFromAsWritten<A, R>(dst: Wrapper<A, R>, src: Wrapper<A, R>): (r: (Wrapper<A, R>, Wrapper<A, R>, seq<Effect>))
    requires Wf(src) && dst.cap == src.cap
    ensures Populated(src) ==> r.0 == src && r.2 == [MoveConstructed(src.storage.value.ty)]
    ensures Populated(src) ==> Unbound(r.1) && r.1.storage == src.storage && !Wf(r.1) && Owned(r.1) == multiset{}
    ensures !Populated(src) ==> r == (dst, src, [])
  {
    if src.moveEntry.Some? then
      (Wrapper(dst.cap, src.callEntry, src.destroyEntry, src.copyEntry, src.moveEntry, src.storage),
       Wrapper(src.cap, None, None, None, None, src.storage),
       [MoveConstructed(src.moveEntry.value)])
    else
      (dst, src, [])
  }

  /** The move as written and the corrected move give the destination the same
      state; the source differs only in the moved-from object the as-written
      move leaves in its storage, and the events only in that object's destruction. */
  lemma MoveFromAsWrittenDiffers<A, R>(dst: Wrapper<A, R>, src: Wrapper<A, R>)
    requires Wf(src) && dst.cap == src.cap
    ensures MoveFromAsWritten(dst, src).0 == MoveFrom(dst, src).0
    ensures MoveFromAsWritten(dst, src).1 == MoveFrom(dst, src).1.(storage := src.storage)
    ensures MoveFrom(dst, src).2 == MoveFromAsWritten(dst, src).2 +
            (if Populated(src) then [Destroyed(src.storage.value.ty)] else [])
  {
  }

  /** For every populated source moved into an empty wrapper, the move as written
      leaves one more live object than the two wrappers own: the moved-from one. */
  lemma MoveFromAsWrittenLeaks<A, R>(dst: Wrapper<A, R>, src: Wrapper<A, R>)
    requires Wf(dst) && Wf(src) && dst.cap == src.cap && !Populated(dst) && Populated(src)
    ensures var (d, s, e) := MoveFromAsWritten(dst, src);
            !Balanced(Owned(dst) + Owned(src), e, Owned(d) + Owned(s))
            && Apply(Owned(dst) + Owned(src), e) == Some(Owned(d) + Owned(s) + Owned(src))
  {
    var t := src.storage.value.ty;
    RelocationWithoutDestroy(t);
    assert Owned(dst) + Owned(src) == multiset{t};
    var (d, s, e) := MoveFromAsWritten(dst, src);
    assert Owned(d) + Owned(s) + Owned(src) == multiset{t, t};
  }

  /** The move constructor as written, from a populated source: the new wrapper
      takes the source's state, and the moved-from object is never destroyed. */
  function MoveConstructAsWritten<A, R>(src: Wrapper<A, R>): (r: (Wrapper<A, R>, Wrapper<A, R>, seq<Effect>))
    requires Wf(src) && Populated(src)
    ensures r.0 == src && !Populated(r.1) && r.1.storage == src.storage && !Wf(r.1)
    ensures Apply(Owned(src), r.2) == Some(Owned(r.0) + Owned(r.1) + Owned(src))
    ensures !Balanced(Owned(src), r.2, Owned(r.0) + Owned(r.1))
  {
    var dst := Empty<A, R>(src.cap);
    MoveFromAsWrittenLeaks(dst, src);
    assert Owned(dst) + Owned(src) == Owned(src);
    MoveFromAsWritten(dst, src)
  }

  /** Move assignment between two distinct wrappers as written: `reset`, then the
      move as written. The prior object is destroyed; the moved-from one is not. */
  function AssignMoveAsWritten<A, R>(dst: Wrapper<A, R>, src: Wrapper<A, R>): (r: (Wrapper<A, R>, Wrapper<A, R>, seq<Effect>))
    requires Wf(src) && dst.cap == src.cap
    ensures Wf(dst) ==> r.0 == (if Populated(src) then src else Empty(dst.cap))
    ensures Populated(src) ==> !Populated(r.1) && r.1.storage == src.storage && !Wf(r.1)
    ensures !Populated(src) ==> r.1 == src
    ensures Wf(dst) ==> r.2 == (if Populated(dst) then [Destroyed(dst.storage.value.ty)] else [])
                              + (if Populated(src) then [MoveConstructed(src.storage.value.ty)] else [])
    ensures Wf(dst) && Populated(src) ==>
              Apply(Owned(dst) + Owned(src), r.2) == Some(Owned(r.0) + Owned(r.1) + Owned(src))
              && !Balanced(Owned(dst) + Owned(src), r.2, Owned(r.0) + Owned(r.1))
  {
    var (w1, e1) := Reset(dst);
    var (d2, s2, e2) := MoveFromAsWritten(w1, src);
    if Wf(dst) && Populated(src) then
      ResetThenLeak(dst, src, e1, e2);
      assert Owned(d2) + Owned(s2) + Owned(src) == multiset{src.storage.value.ty, src.storage.value.ty};
      (d2, s2, e1 + e2)
    else
      (d2, s2, e1 + e2)
  }

  /** The ledger step behind `AssignMoveAsWritten`: `reset` balances the
      destination's object away, then the bare move-construction adds a second
      copy of the source's type. */
  lemma ResetThenLeak<A, R>(dst: Wrapper<A, R>, src: Wrapper<A, R>, e1: seq<Effect>, e2: seq<Effect>)
    requires Wf(dst) && Wf(src) && Populated(src)
    requires e1 == Reset(dst).1 && e2 == [MoveConstructed(src.storage.value.ty)]
    ensures Apply(Owned(dst) + Owned(src), e1 + e2) == Some(multiset{src.storage.value.ty, src.storage.value.ty})
  {
    var t := src.storage.value.ty;
    ApplyFrame(Owned(src), Owned(dst), e1);
    assert Owned(src) + Owned(dst) == Owned(dst) + Owned(src);
    assert Owned(src) + Owned(Reset(dst).0) == multiset{t};
    RelocationWithoutDestroy(t);
    BalancedThen(Owned(dst) + Owned(src), e1, multiset{t}, e2, multiset{t, t});
  }

  /** The round trip with the move as written: moving a populated `a` into an
      empty `b` and back restores `a`, but `b` keeps the moved-from object in its
      storage under a null table and is no longer well formed. */
  lemma MoveRoundTripAsWritten<A, R>(a: Wrapper<A, R>, b: Wrapper<A, R>)
    requires Wf(a) && Wf(b) && a.cap == b.cap && Populated(a) && !Populated(b)
    ensures var (b1, a1, _) := AssignMoveAsWritten(b, a);
            var (a2, b2, _) := AssignMoveAsWritten(a1, b1);
            a2 == a && b2 == b.(storage := a.storage) && !Wf(b2)
  {
  }
}

/**
  The callables a wrapper can hold, and what the type-bound operation table
  functions (`call_impl`, `destroy_impl`, `copy_impl`, `move_impl`) do to the
  lifetime of the object living in a storage cell.
 */
module Functors {
  import opened Optional

  /** A concrete functor type (`std::decay<Functor>::type`): `id` tells types apart,
      `size` is its `sizeof` in bytes. A table entry bound to a type is identified by it. */
  datatype FunctorType = FunctorType(id: nat, size: nat)

  /** A callable object of type `ty`; invoking it is the pure function `fn`. */
  datatype Callable<!A, R> = Callable(ty: FunctorType, fn: A -> R)

  /** One object-lifetime event performed through the operation table:
      the placement construction in `create`, `copy_impl`, `move_impl`,
      or the explicit destructor call in `destroy_impl`. */
  datatype Effect =
    | Constructed(ty: FunctorType)
    | CopyConstructed(ty: FunctorType)
    | MoveConstructed(ty: FunctorType)
    | Destroyed(ty: FunctorType)

  /** Replays lifetime events, in order, on the multiset of live objects (by type).
      `None` when a destructor runs on an object that is not alive. */
  function Apply(live: multiset<FunctorType>, e: seq<Effect>): Option<multiset<FunctorType>>
    decreases |e|
  {
    if |e| == 0 then Some(live)
    else if e[0].Destroyed? then
      if e[0].ty in live then Apply(live - multiset{e[0].ty}, e[1..]) else None
    else Apply(live + multiset{e[0].ty}, e[1..])
  }

  /** The events `e` take the live objects `before` exactly to the live objects `after`:
      no destructor call on a dead object, no object constructed and then lost,
      no object lost without its destructor. */
  predicate Balanced(before: multiset<FunctorType>, e: seq<Effect>, after: multiset<FunctorType>)
  {
    Apply(before, e) == Some(after)
  }

  /** Adding the same objects to both sides of a ledger equation keeps it. */
  lemma UnionShift(a: multiset<FunctorType>, b: multiset<FunctorType>, c: multiset<FunctorType>,
                   d: multiset<FunctorType>, e: multiset<FunctorType>)
    requires b + c == d + e
    ensures (a + b) + c == (a + d) + e
  {
    forall x ensures ((a + b) + c)[x] == ((a + d) + e)[x] {
      assert (b + c)[x] == (d + e)[x];
    }
  }

  /** Regrouping the objects of a ledger. */
  lemma Regroup(h: multiset<FunctorType>, x: multiset<FunctorType>, y: multiset<FunctorType>)
    ensures (h + x) + y == h + (x + y) == (h + y) + x
  {
    forall t ensures ((h + x) + y)[t] == (h + (x + y))[t] == ((h + y) + x)[t] {
    }
  }

  /** Replaying a single event. */
  lemma ApplyEvent(live: multiset<FunctorType>, x: Effect)
    ensures Apply(live, [x]) ==
            if !x.Destroyed? then Some(live + multiset{x.ty})
            else if x.ty in live then Some(live - multiset{x.ty})
            else None
  {
    assert [x][1..] == [];
  }

  /** Replaying two events. */
  lemma ApplyEvents(live: multiset<FunctorType>, x: Effect, y: Effect)
    ensures Apply(live, [x, y]) ==
            (match Apply(live, [x]) case None => None case Some(mid) => Apply(mid, [y]))
  {
    assert [x, y] == [x] + [y];
    ApplyAppend(live, [x], [y]);
  }

  /** Constructing an object from nothing (`create`, or `copy_impl` into empty storage). */
  lemma Birth(x: Effect)
    requires !x.Destroyed?
    ensures Balanced(multiset{}, [x], multiset{x.ty})
  {
    ApplyEvent(multiset{}, x);
    assert multiset{} + multiset{x.ty} == multiset{x.ty};
  }

  /** Destroying the only live object (`destroy_impl`). */
  lemma Death(t: FunctorType)
    ensures Balanced(multiset{t}, [Destroyed(t)], multiset{})
  {
    ApplyEvent(multiset{t}, Destroyed(t));
  }

  /** Move-constructing an object elsewhere and destroying the moved-from one
      leaves the same live objects. */
  lemma Relocation(t: FunctorType)
    ensures Balanced(multiset{t}, [MoveConstructed(t), Destroyed(t)], multiset{t})
  {
    ApplyEvents(multiset{t}, MoveConstructed(t), Destroyed(t));
    ApplyEvent(multiset{t}, MoveConstructed(t));
    ApplyEvent(multiset{t} + multiset{t}, Destroyed(t));
    assert multiset{t} + multiset{t} - multiset{t} == multiset{t};
  }

  /** Move-constructing an object elsewhere without destroying the moved-from
      one leaves both alive. */
  lemma RelocationWithoutDestroy(t: FunctorType)
    ensures Apply(multiset{t}, [MoveConstructed(t)]) == Some(multiset{t, t})
    ensures !Balanced(multiset{t}, [MoveConstructed(t)], multiset{t})
  {
    ApplyEvent(multiset{t}, MoveConstructed(t));
    assert multiset{t} + multiset{t} == multiset{t, t} != multiset{t};
  }

  /** Replaying two lists of events one after the other is replaying their concatenation. */
  lemma {:induction false} ApplyAppend(live: multiset<FunctorType>, e1: seq<Effect>, e2: seq<Effect>)
    ensures Apply(live, e1 + e2) ==
            (match Apply(live, e1) case None => None case Some(mid) => Apply(mid, e2))
    decreases |e1|
  {
    if |e1| == 0 {
      assert e1 + e2 == e2;
    } else {
      assert (e1 + e2)[0] == e1[0];
      assert (e1 + e2)[1..] == e1[1..] + e2;
      if e1[0].Destroyed? {
        if e1[0].ty in live {
          ApplyAppend(live - multiset{e1[0].ty}, e1[1..], e2);
        }
      } else {
        ApplyAppend(live + multiset{e1[0].ty}, e1[1..], e2);
      }
    }
  }

  /** Objects the events do not touch stay alive and untouched: a step that is
      balanced on its own objects is balanced inside any larger set of live objects. */
  lemma {:induction false} ApplyFrame(other: multiset<FunctorType>, live: multiset<FunctorType>, e: seq<Effect>)
    requires Apply(live, e).Some?
    ensures Apply(other + live, e) == Some(other + Apply(live, e).value)
    decreases |e|
  {
    if |e| > 0 {
      var t := e[0].ty;
      if e[0].Destroyed? {
        assert (other + live) - multiset{t} == other + (live - multiset{t});
        ApplyFrame(other, live - multiset{t}, e[1..]);
      } else {
        assert (other + live) + multiset{t} == other + (live + multiset{t});
        ApplyFrame(other, live + multiset{t}, e[1..]);
      }
    }
  }

  /** Two balanced steps in a row form one balanced step. */
  lemma BalancedThen(a: multiset<FunctorType>, e1: seq<Effect>, b: multiset<FunctorType>,
                     e2: seq<Effect>, c: multiset<FunctorType>)
    requires Balanced(a, e1, b) && Balanced(b, e2, c)
    ensures Balanced(a, e1 + e2, c)
  {
    ApplyAppend(a, e1, e2);
  }
}

/**
  The demonstration program's `main`, replayed on the program machine with
  `fixed_size_function<int(int), 256>`. The five callables it stores (the
  functor `X`, the free function `f`, the two `std::bind` results and the
  lambda) all return their argument; only that and their sizes matter here.
 */
module Scenario {
  import opened Optional
  import opened Functors
  import opened FixedSizeFunction
  import opened Programs

  /** The callables of the demonstration: each returns its argument and fits in 256 bytes. */
  ghost predicate Echoes(c: Callable<int, int>)
  {
    c.ty.size <= 256 && forall a :: c.fn(a) == a
  }

  /** The state `fixed_size_function<int(int), 256>` takes when constructed from `c`. */
  function Holding(c: Callable<int, int>): Wrapper<int, int>
    requires c.ty.size <= 256
  {
    FromFunctor(256, c).0
  }

  /** A wrapper holding a callable of the demonstration is populated and calls it. */
  lemma HoldingCalls(c: Callable<int, int>, k: int)
    requires Echoes(c)
    ensures Populated(Holding(c)) && !EqualsNull(Holding(c)) && Invoke(Holding(c), k) == Returned(k)
  {
  }

  /** Lines 70-77 and 82: `function fun0; function fun(x), fun2(f); function fun3(fun);`
      Variables are numbered in declaration order: `fun0` 0, `fun` 1, `fun2` 2, `fun3` 3. */
  function Declarations(x: Callable<int, int>, f: Callable<int, int>): seq<Stmt<int, int>>
  {
    [DeclareEmpty] + [DeclareFunctor(x)] + [DeclareFunctor(f)] + [DeclareCopy(1)]
  }

  /** Line 86: `fun2 = std::move(fun);` */
  const MoveSegment: seq<Stmt<int, int>> := [MoveAssignment(2, 1)]

  /** Line 91: `fun = fun2;` */
  const CopySegment: seq<Stmt<int, int>> := [CopyAssignment(1, 2)]

  /** Lines 96-97: `fun.reset(); fun2.swap(fun);` */
  const SwapSegment: seq<Stmt<int, int>> := [ResetVar(1), SwapVars(2, 1)]

  /** Lines 121-122: `fun = nullptr; fun3.reset();` */
  const ClearSegment: seq<Stmt<int, int>> := [NullAssignment(1), ResetVar(3)]

  /** The whole of `main`, up to and including the end of its scope: the four
      declarations, then ten statements on `fun`, `fun2` and `fun3` only (`fun0`
      is never touched again), then the four variables leave scope. */
  function Main(x: Callable<int, int>, f: Callable<int, int>, b: Callable<int, int>,
                mf: Callable<int, int>, l: Callable<int, int>): (r: seq<Stmt<int, int>>)
    ensures |r| == 18 && r[..4] == Declarations(x, f) && r[14..] == EndScopes(4)
    ensures forall k | 4 <= k < 14 :: Mentions(r[k]) != {} && Mentions(r[k]) <= {1, 2, 3}
  {
    Declarations(x, f) + MoveSegment + CopySegment + SwapSegment
    + [FunctorAssignment(1, f)] + [FunctorAssignment(1, b)] + [FunctorAssignment(1, mf)] + [FunctorAssignment(1, l)]
    + ClearSegment + EndScopes(4)
  }

  /** Running two programs one after the other. */
  lemma {:induction false} RunAppend<A, R>(m: Machine<A, R>, p: seq<Stmt<A, R>>, q: seq<Stmt<A, R>>)
    requires Inv(m)
    ensures Run(m, p + q) == (match Run(m, p) case None => None case Some(m1) => Run(m1, q))
    decreases |p|
  {
    if |p| == 0 {
      assert p + q == q;
    } else {
      assert (p + q)[0] == p[0] && (p + q)[1..] == p[1..] + q;
      match Step(m, p[0])
      case None =>
      case Some(m1) => RunAppend(m1, p[1..], q);
    }
  }

  /** Running a program whose first statement has a meaning: that statement, then the rest. */
  lemma RunFirst<A, R>(m: Machine<A, R>, p: seq<Stmt<A, R>>)
    requires Inv(m) && |p| > 0 && Defined(m, p[0])
    ensures Run(m, p) == Run(Exec(m, p[0]), p[1..])
  {
  }

  /** Running a single statement that has a meaning. */
  lemma RunOne<A, R>(m: Machine<A, R>, s: Stmt<A, R>)
    requires Inv(m) && Defined(m, s)
    ensures Run(m, [s]) == Some(Exec(m, s))
  {
    RunFirst(m, [s]);
  }

  /** The declarations of lines 73, 77 and 82 run from the start of `main`. */
  lemma DeclarationsRun(x: Callable<int, int>, f: Callable<int, int>)
    requires Echoes(x) && Echoes(f)
    ensures Run(Start(256), Declarations(x, f)).Some?
    ensures Run(Start(256), Declarations(x, f)).value.vars
            == [Empty(256), Holding(x), Holding(f), Holding(x)]
  {
    var m0 := Start<int, int>(256);
    RunOne(m0, DeclareEmpty);
    var m1 := Push(m0);
    assert m1.vars == [Empty(256)];
    var p1 := [DeclareEmpty];
    RunOne(m1, DeclareFunctor(x));
    RunThen(m0, p1, [DeclareFunctor(x)]);
    var m2 := DeclareFunctorStep(m1, x);
    assert m2.vars == [Empty(256), Holding(x)];
    var p2 := p1 + [DeclareFunctor(x)];
    RunOne(m2, DeclareFunctor(f));
    RunThen(m0, p2, [DeclareFunctor(f)]);
    var m3 := DeclareFunctorStep(m2, f);
    assert m3.vars == [Empty(256), Holding(x), Holding(f)];
    var p3 := p2 + [DeclareFunctor(f)];
    RunOne(m3, DeclareCopy(1));
    RunThen(m0, p3, [DeclareCopy(1)]);
    var m4 := DeclareCopyStep(m3, 1);
    assert m4.vars == [Empty(256), Holding(x), Holding(f), Holding(x)];
  }

  /** Lines 70-83: the default-constructed `fun0` is empty, `fun` and `fun2` call
      their functors, and the copy `fun3` calls the same functor as `fun`. */
  lemma DeclarationsChecks(x: Callable<int, int>, f: Callable<int, int>)
    requires Echoes(x) && Echoes(f)
    ensures Run(Start(256), Declarations(x, f)).Some?
    ensures var m := Run(Start(256), Declarations(x, f)).value;
            |m.vars| == 4 && !Populated(m.vars[0])
            && Invoke(m.vars[1], 1) == Returned(1) && Invoke(m.vars[2], 2) == Returned(2)
            && Invoke(m.vars[3], 3) == Returned(3)
  {
    DeclarationsRun(x, f);
    HoldingCalls(x, 1);
    HoldingCalls(f, 2);
    HoldingCalls(x, 3);
  }

  /** Lines 86-88: after `fun2 = std::move(fun);`, `fun2` calls what `fun` called
      and `fun` is empty. */
  lemma MoveChecks(m: Machine<int, int>, x: Callable<int, int>, f: Callable<int, int>)
    requires Inv(m) && m.cap == 256 && Echoes(x) && Echoes(f)
    requires m.vars == [Empty(256), Holding(x), Holding(f), Holding(x)]
    ensures Run(m, MoveSegment).Some?
    ensures var r := Run(m, MoveSegment).value;
            r.vars == [Empty(256), Empty(256), Holding(x), Holding(x)]
            && Invoke(r.vars[2], 4) == Returned(4) && !Populated(r.vars[1])
  {
    RunFirst(m, MoveSegment);
    HoldingCalls(x, 4);
  }

  /** Lines 91-93: after `fun = fun2;` both are populated. */
  lemma CopyChecks(m: Machine<int, int>, x: Callable<int, int>)
    requires Inv(m) && m.cap == 256 && Echoes(x)
    requires m.vars == [Empty(256), Empty(256), Holding(x), Holding(x)]
    ensures Run(m, CopySegment).Some?
    ensures var r := Run(m, CopySegment).value;
            r.vars == [Empty(256), Holding(x), Holding(x), Holding(x)]
            && Populated(r.vars[1]) && Populated(r.vars[2])
  {
    RunFirst(m, CopySegment);
    HoldingCalls(x, 0);
  }

  /** Lines 96-98: after `fun.reset(); fun2.swap(fun);` `fun` is populated and `fun2` is not. */
  lemma SwapChecks(m: Machine<int, int>, x: Callable<int, int>)
    requires Inv(m) && m.cap == 256 && Echoes(x)
    requires m.vars == [Empty(256), Holding(x), Holding(x), Holding(x)]
    ensures Run(m, SwapSegment).Some?
    ensures var r := Run(m, SwapSegment).value;
            r.vars == [Empty(256), Holding(x), Empty(256), Holding(x)]
            && Populated(r.vars[1]) && !Populated(r.vars[2])
  {
    var m1 := ResetStep(m, 1, false);
    assert m1.vars == [Empty(256), Empty(256), Holding(x), Holding(x)];
    var m2 := SwapStep(m1, 2, 1);
    assert m2.vars == [Empty(256), Holding(x), Empty(256), Holding(x)];
    RunFirst(m, SwapSegment);
    assert SwapSegment[1..] == [SwapVars(2, 1)];
    RunFirst(m1, SwapSegment[1..]);
    HoldingCalls(x, 0);
  }

  /** Lines 101-118: after `fun = c;` for a callable returning its argument,
      `fun(k)` returns `k`, whatever `fun` held before; the other variables are untouched. */
  lemma AssignChecks(m: Machine<int, int>, c: Callable<int, int>, k: int)
    requires Inv(m) && m.cap == 256 && Echoes(c) && |m.vars| == 4
    ensures Run(m, [FunctorAssignment(1, c)]).Some?
    ensures var r := Run(m, [FunctorAssignment(1, c)]).value;
            r.vars == m.vars[1 := Holding(c)] && Invoke(r.vars[1], k) == Returned(k)
  {
    RunFirst(m, [FunctorAssignment(1, c)]);
    HoldingCalls(c, k);
  }

  /** Lines 121-138: after `fun = nullptr; fun3.reset();` both are empty, `fun == nullptr`,
      and calling `fun` throws `std::bad_function_call`. */
  lemma ClearChecks(m: Machine<int, int>, x: Callable<int, int>, c: Callable<int, int>)
    requires Inv(m) && m.cap == 256 && Echoes(x) && Echoes(c)
    requires m.vars == [Empty(256), Holding(c), Empty(256), Holding(x)]
    ensures Run(m, ClearSegment).Some?
    ensures var r := Run(m, ClearSegment).value;
            r.vars == [Empty(256), Empty(256), Empty(256), Empty(256)]
            && !Populated(r.vars[1]) && !Populated(r.vars[3]) && EqualsNull(r.vars[1])
            && Invoke(r.vars[1], 0) == Threw(BadFunctionCall)
  {
    var m1 := ResetStep(m, 1, true);
    assert m1.vars == [Empty(256), Empty(256), Empty(256), Holding(x)];
    var m2 := ResetStep(m1, 3, false);
    assert m2.vars == [Empty(256), Empty(256), Empty(256), Empty(256)];
    RunFirst(m, ClearSegment);
    assert ClearSegment[1..] == [ResetVar(3)];
    RunFirst(m1, ClearSegment[1..]);
  }

  /** Running a program, then one more segment whose run from the state reached is known. */
  lemma RunThen(m: Machine<int, int>, p: seq<Stmt<int, int>>, q: seq<Stmt<int, int>>)
    requires Inv(m) && Run(m, p).Some? && Run(Run(m, p).value, q).Some?
    ensures Run(m, p + q) == Run(Run(m, p).value, q)
  {
    RunAppend(m, p, q);
  }

  /** `main` up to line 93. */
  lemma ReachCopy(x: Callable<int, int>, f: Callable<int, int>)
    requires Echoes(x) && Echoes(f)
    ensures Run(Start(256), Declarations(x, f) + MoveSegment + CopySegment).Some?
    ensures Run(Start(256), Declarations(x, f) + MoveSegment + CopySegment).value.vars
            == [Empty(256), Holding(x), Holding(x), Holding(x)]
  {
    var m0 := Start<int, int>(256);
    var p1 := Declarations(x, f);
    DeclarationsRun(x, f);
    var m1 := Run(m0, p1).value;
    MoveChecks(m1, x, f);
    RunThen(m0, p1, MoveSegment);
    var m2 := Run(m1, MoveSegment).value;
    CopyChecks(m2, x);
    RunThen(m0, p1 + MoveSegment, CopySegment);
  }

  /** `main` up to line 98. */
  lemma ReachSwap(x: Callable<int, int>, f: Callable<int, int>)
    requires Echoes(x) && Echoes(f)
    ensures Run(Start(256), Declarations(x, f) + MoveSegment + CopySegment + SwapSegment).Some?
    ensures Run(Start(256), Declarations(x, f) + MoveSegment + CopySegment + SwapSegment).value.vars
            == [Empty(256), Holding(x), Empty(256), Holding(x)]
  {
    var m0 := Start<int, int>(256);
    var p := Declarations(x, f) + MoveSegment + CopySegment;
    ReachCopy(x, f);
    SwapChecks(Run(m0, p).value, x);
    RunThen(m0, p, SwapSegment);
  }

  /** One more assignment `fun = c;` in the stretch of lines 101-118, where `fun0`
      and `fun2` are empty and `fun3` holds `x`. */
  lemma ReachAssign(m: Machine<int, int>, p: seq<Stmt<int, int>>, x: Callable<int, int>, c: Callable<int, int>)
    requires Inv(m) && Echoes(x) && Echoes(c) && Run(m, p).Some? && Run(m, p).value.cap == 256
    requires var vs := Run(m, p).value.vars;
             |vs| == 4 && vs[0] == Empty(256) && vs[2] == Empty(256) && vs[3] == Holding(x)
    ensures Run(m, p + [FunctorAssignment(1, c)]).Some?
    ensures Run(m, p + [FunctorAssignment(1, c)]).value.vars == [Empty(256), Holding(c), Empty(256), Holding(x)]
  {
    var vs := Run(m, p).value.vars;
    AssignChecks(Run(m, p).value, c, 0);
    assert vs[1 := Holding(c)] == [Empty(256), Holding(c), Empty(256), Holding(x)];
    RunThen(m, p, [FunctorAssignment(1, c)]);
  }

  /** `main` up to line 118: four assignments of callables to `fun`. */
  lemma ReachAssigns(x: Callable<int, int>, f: Callable<int, int>, b: Callable<int, int>,
                     mf: Callable<int, int>, l: Callable<int, int>)
    requires Echoes(x) && Echoes(f) && Echoes(b) && Echoes(mf) && Echoes(l)
    ensures Run(Start(256), Declarations(x, f) + MoveSegment + CopySegment + SwapSegment
                + [FunctorAssignment(1, f)] + [FunctorAssignment(1, b)] + [FunctorAssignment(1, mf)] + [FunctorAssignment(1, l)]).Some?
    ensures Run(Start(256), Declarations(x, f) + MoveSegment + CopySegment + SwapSegment
                + [FunctorAssignment(1, f)] + [FunctorAssignment(1, b)] + [FunctorAssignment(1, mf)] + [FunctorAssignment(1, l)]).value.vars
            == [Empty(256), Holding(l), Empty(256), Holding(x)]
  {
    var m0 := Start<int, int>(256);
    var p4 := Declarations(x, f) + MoveSegment + CopySegment + SwapSegment;
    ReachSwap(x, f);
    var p5 := p4 + [FunctorAssignment(1, f)];
    ReachAssign(m0, p4, x, f);
    var p6 := p5 + [FunctorAssignment(1, b)];
    ReachAssign(m0, p5, x, b);
    var p7 := p6 + [FunctorAssignment(1, mf)];
    ReachAssign(m0, p6, x, mf);
    ReachAssign(m0, p7, x, l);
  }

  /** The whole of `main`: each check above holds in the state the statements
      before it reach, and when `main` returns every callable the wrappers
      constructed has been destroyed exactly once. */
  lemma MainDestroysEverything(x: Callable<int, int>, f: Callable<int, int>, b: Callable<int, int>,
                               mf: Callable<int, int>, l: Callable<int, int>)
    requires Echoes(x) && Echoes(f) && Echoes(b) && Echoes(mf) && Echoes(l)
    ensures Run(Start(256), Main(x, f, b, mf, l)) == Some(Start(256))
  {
    var m0 := Start<int, int>(256);
    var p8 := Declarations(x, f) + MoveSegment + CopySegment + SwapSegment
              + [FunctorAssignment(1, f)] + [FunctorAssignment(1, b)] + [FunctorAssignment(1, mf)] + [FunctorAssignment(1, l)];
    ReachAssigns(x, f, b, mf, l);
    ClearChecks(Run(m0, p8).value, x, l);
    RunThen(m0, p8, ClearSegment);
    var m9 := Run(m0, p8 + ClearSegment).value;
    LeavingEveryScopeDestroysEverything(m9);
    RunThen(m0, p8 + ClearSegment, EndScopes(4));
  }

  /** Line 86 with the move as written: `fun2 = std::move(fun);` leaves the ledger
      holding one more `X` than the four variables own, the moved-from one still
      in `fun`'s storage, which nothing will ever destroy. */
  lemma MoveLineAsWrittenLeaks(x: Callable<int, int>, f: Callable<int, int>)
    requires Echoes(x) && Echoes(f)
    ensures Run(Start(256), Declarations(x, f)).Some? && |Run(Start(256), Declarations(x, f)).value.vars| == 4
    ensures var m := Run(Start(256), Declarations(x, f)).value;
            var (d, left, e) := AssignMoveAsWritten(m.vars[2], m.vars[1]);
            d == Holding(x) && left.storage == Some(x) && !Wf(left)
            && Apply(m.live, e) == Some(HeldAll(m.vars[2 := d][1 := left]) + multiset{x.ty})
  {
    DeclarationsRun(x, f);
    var m := Run(Start(256), Declarations(x, f)).value;
    HoldingCalls(x, 0);
    MoveAssignmentAsWrittenLeaks(m, 2, 1);
  }
}

/**
  Straight-line programs over a set of wrapper variables of one type
  `fixed_size_function<Sig, MaxSize>`.

  Variables are indexed by declaration order, so a statement can name the same
  variable twice (`f = f`, `f = std::move(f)`, `f.swap(f)`) and the aliasing
  the member functions see is modelled exactly. The machine also keeps a ledger
  of the callable objects alive in any storage cell, driven only by the
  lifetime events the operation table performed; the invariant is that this
  ledger always equals what the variables own: no object is leaked and none is
  destroyed twice.
 */
module Programs {
  import opened Optional
  import opened Functors
  import opened FixedSizeFunction

  datatype Stmt<!A, R> =
    | DeclareEmpty                                    // `function f;` or `function f(nullptr);`
    | DeclareFunctor(f: Callable<A, R>)               // `function f(functor);`
    | DeclareCopy(src: nat)                           // `function f(g);`
    | DeclareMove(src: nat)                           // `function f(std::move(g));`
    | NullAssignment(dst: nat)                        // `f = nullptr;`
    | ResetVar(dst: nat)                              // `f.reset();`
    | FunctorAssignment(dst: nat, f: Callable<A, R>)  // `f = functor;`
    | CopyAssignment(dst: nat, src: nat)              // `f = g;`
    | MoveAssignment(dst: nat, src: nat)              // `f = std::move(g);`
    | SwapVars(dst: nat, src: nat)                    // `f.swap(g);` or `swap(f, g);`
    | EndScope                                        // the last declared variable goes out of scope

  /** Variables of capacity `cap`, and the live objects as recorded by the events. */
  datatype Machine<!A, R> = Machine(cap: nat, vars: seq<Wrapper<A, R>>, live: multiset<FunctorType>)

  /** The objects the variables own. */
  function HeldAll<A, R>(vars: seq<Wrapper<A, R>>): multiset<FunctorType>
  {
    if |vars| == 0 then multiset{} else Owned(vars[0]) + HeldAll(vars[1..])
  }

  /** Every variable is well formed and has the machine's capacity. */
  predicate AllWf<A, R>(m: Machine<A, R>)
  {
    forall i :: 0 <= i < |m.vars| ==> Wf(m.vars[i]) && m.vars[i].cap == m.cap
  }

  /** The machine invariant: well-formed variables, and a ledger that matches ownership. */
  predicate Inv<A, R>(m: Machine<A, R>)
  {
    AllWf(m) && m.live == HeldAll(m.vars)
  }

  /** The variables a statement names. */
  function Mentions<A, R>(s: Stmt<A, R>): set<nat>
  {
    match s
    case DeclareCopy(src) => {src}
    case DeclareMove(src) => {src}
    case NullAssignment(dst) => {dst}
    case ResetVar(dst) => {dst}
    case FunctorAssignment(dst, _) => {dst}
    case CopyAssignment(dst, src) => {dst, src}
    case MoveAssignment(dst, src) => {dst, src}
    case SwapVars(dst, src) => {dst, src}
    case _ => {}
  }

  /** The functor a statement stores, if any. */
  function Stores<A, R>(s: Stmt<A, R>): Option<Callable<A, R>>
  {
    match s
    case DeclareFunctor(f) => Some(f)
    case FunctorAssignment(_, f) => Some(f)
    case _ => None
  }

  /** The statements C++ gives a meaning to: every variable named is in scope,
      a stored functor fits the capacity (otherwise the `static_assert` rejects
      the program), a copy or move constructor's source is populated (otherwise
      the new object's table is indeterminate), and a scope is open to close. */
  predicate Defined<A, R>(m: Machine<A, R>, s: Stmt<A, R>)
  {
    match s
    case DeclareEmpty => true
    case DeclareFunctor(f) => f.ty.size <= m.cap
    case DeclareCopy(src) => src < |m.vars| && Populated(m.vars[src])
    case DeclareMove(src) => src < |m.vars| && Populated(m.vars[src])
    case NullAssignment(dst) => dst < |m.vars|
    case ResetVar(dst) => dst < |m.vars|
    case FunctorAssignment(dst, f) => dst < |m.vars| && f.ty.size <= m.cap
    case CopyAssignment(dst, src) => dst < |m.vars| && src < |m.vars|
    case MoveAssignment(dst, src) => dst < |m.vars| && src < |m.vars|
    case SwapVars(dst, src) => dst < |m.vars| && src < |m.vars|
    case EndScope => |m.vars| > 0
  }

  /** A statement has a meaning exactly when every variable it names is in
      scope, the functor it stores fits, a constructor's source is populated,
      and a scope is open to close. */
  lemma DefinedExactly<A, R>(m: Machine<A, R>, s: Stmt<A, R>)
    ensures Defined(m, s) <==> (forall i | i in Mentions(s) :: i < |m.vars|)
                               && (Stores(s).Some? ==> Stores(s).value.ty.size <= m.cap)
                               && ((s.DeclareCopy? || s.DeclareMove?) ==> s.src < |m.vars| && Populated(m.vars[s.src]))
                               && (s.EndScope? ==> |m.vars| > 0)
  {
    match s
    case DeclareCopy(src) => assert Mentions(s) == {src};
    case DeclareMove(src) => assert Mentions(s) == {src};
    case NullAssignment(dst) => assert Mentions(s) == {dst};
    case ResetVar(dst) => assert Mentions(s) == {dst};
    case FunctorAssignment(dst, f) => assert Mentions(s) == {dst};
    case CopyAssignment(dst, src) => assert Mentions(s) == {dst, src};
    case MoveAssignment(dst, src) => assert Mentions(s) == {dst, src};
    case SwapVars(dst, src) => assert Mentions(s) == {dst, src};
    case _ =>
  }

  // ---------------------------------------------------------------------------
  // Bookkeeping over the variables

  /** What all variables own is what the first one owns plus what the rest own. */
  lemma HeldAllCons<A, R>(vs: seq<Wrapper<A, R>>)
    requires |vs| > 0
    ensures HeldAll(vs) == Owned(vs[0]) + HeldAll(vs[1..])
  {
  }

  /** Replacing variable `i` by `w` trades what `vs[i]` owned for what `w` owns. */
  lemma {:induction false} HeldAllUpdate<A, R>(vs: seq<Wrapper<A, R>>, i: nat, w: Wrapper<A, R>)
    requires i < |vs|
    ensures HeldAll(vs[i := w]) + Owned(vs[i]) == HeldAll(vs) + Owned(w)
    decreases i
  {
    var vs' := vs[i := w];
    HeldAllCons(vs);
    HeldAllCons(vs');
    if i == 0 {
      assert vs'[1..] == vs[1..];
    } else {
      var tail := vs[1..];
      assert vs'[0] == vs[0] && vs'[1..] == tail[i - 1 := w];
      HeldAllUpdate(tail, i - 1, w);
      UnionShift(Owned(vs[0]), HeldAll(vs'[1..]), Owned(vs[i]), HeldAll(tail), Owned(w));
    }
  }

  lemma {:induction false} HeldAllAppend<A, R>(vs: seq<Wrapper<A, R>>, w: Wrapper<A, R>)
    ensures HeldAll(vs + [w]) == HeldAll(vs) + Owned(w)
    decreases |vs|
  {
    if |vs| == 0 {
      assert vs + [w] == [w];
      assert [w][1..] == [];
    } else {
      assert (vs + [w])[1..] == vs[1..] + [w];
      HeldAllAppend(vs[1..], w);
    }
  }

  /** What all variables own is what variable `i` owns plus what the others own. */
  lemma HeldAllSplit<A, R>(vs: seq<Wrapper<A, R>>, i: nat)
    requires i < |vs|
    ensures HeldAll(vs) == HeldAll(vs[i := Empty(0)]) + Owned(vs[i])
  {
    HeldAllUpdate(vs, i, Empty(0));
  }

  /** Replacing one variable: the ledger follows the events exactly when the
      events account for what that variable owned before and after. */
  lemma ReplaceOne<A, R>(vs: seq<Wrapper<A, R>>, i: nat, w: Wrapper<A, R>, e: seq<Effect>)
    requires i < |vs| && Balanced(Owned(vs[i]), e, Owned(w))
    ensures Apply(HeldAll(vs), e) == Some(HeldAll(vs[i := w]))
  {
    var nothing := Empty<A, R>(0);
    HeldAllSplit(vs, i);
    HeldAllSplit(vs[i := w], i);
    assert vs[i := w][i := nothing] == vs[i := nothing];
    ApplyFrame(HeldAll(vs[i := nothing]), Owned(vs[i]), e);
  }

  /** What all variables own is what two distinct variables own plus what the others own. */
  lemma HeldAllSplitTwo<A, R>(vs: seq<Wrapper<A, R>>, i: nat, j: nat)
    requires i < |vs| && j < |vs| && i != j
    ensures HeldAll(vs) == HeldAll(vs[i := Empty(0)][j := Empty(0)]) + (Owned(vs[i]) + Owned(vs[j]))
  {
    var holes := vs[i := Empty(0)][j := Empty(0)];
    HeldAllSplit(vs, i);
    HeldAllSplit(vs[i := Empty(0)], j);
    assert vs[i := Empty(0)][j] == vs[j];
    Regroup(HeldAll(holes), Owned(vs[i]), Owned(vs[j]));
  }

  /** Replacing two distinct variables at once, by events that may leave some
      `extra` objects alive beyond what the two new states own: those objects
      stay in the ledger on top of what all variables own. */
  lemma ReplaceTwoLeaving<A, R>(vs: seq<Wrapper<A, R>>, i: nat, j: nat, wi: Wrapper<A, R>, wj: Wrapper<A, R>,
                                e: seq<Effect>, extra: multiset<FunctorType>)
    requires i < |vs| && j < |vs| && i != j
    requires Apply(Owned(vs[i]) + Owned(vs[j]), e) == Some(Owned(wi) + Owned(wj) + extra)
    ensures Apply(HeldAll(vs), e) == Some(HeldAll(vs[i := wi][j := wj]) + extra)
  {
    var after := vs[i := wi][j := wj];
    var holes := vs[i := Empty(0)][j := Empty(0)];
    assert after[i := Empty(0)][j := Empty(0)] == holes;
    assert after[i] == wi && after[j] == wj;
    var h := HeldAll(holes);
    var before2, after2 := Owned(vs[i]) + Owned(vs[j]), Owned(wi) + Owned(wj);
    HeldAllSplitTwo(vs, i, j);
    assert HeldAll(vs) == h + before2;
    HeldAllSplitTwo(after, i, j);
    assert HeldAll(after) == h + after2;
    ApplyFrame(h, before2, e);
    Regroup(h, after2, extra);
  }

  /** Replacing two distinct variables at once, by events that account for
      exactly what they owned before and after. */
  lemma ReplaceTwo<A, R>(vs: seq<Wrapper<A, R>>, i: nat, j: nat, wi: Wrapper<A, R>, wj: Wrapper<A, R>, e: seq<Effect>)
    requires i < |vs| && j < |vs| && i != j
    requires Balanced(Owned(vs[i]) + Owned(vs[j]), e, Owned(wi) + Owned(wj))
    ensures Apply(HeldAll(vs), e) == Some(HeldAll(vs[i := wi][j := wj]))
  {
    assert Owned(wi) + Owned(wj) + multiset{} == Owned(wi) + Owned(wj);
    ReplaceTwoLeaving(vs, i, j, wi, wj, e, multiset{});
    assert HeldAll(vs[i := wi][j := wj]) + multiset{} == HeldAll(vs[i := wi][j := wj]);
  }

  /** Replacing a variable by a well-formed wrapper of the same capacity keeps every variable well formed. */
  lemma AllWfReplace<A, R>(m: Machine<A, R>, i: nat, w: Wrapper<A, R>)
    requires AllWf(m) && i < |m.vars| && Wf(w) && w.cap == m.cap
    ensures AllWf(Machine(m.cap, m.vars[i := w], m.live))
  {
  }

  /** Replaces variable `i`; the events must account for what it owned before and after. */
  function Commit<A, R>(m: Machine<A, R>, i: nat, w: Wrapper<A, R>, e: seq<Effect>): (r: Machine<A, R>)
    requires Inv(m) && i < |m.vars| && Wf(w) && w.cap == m.cap
    requires Balanced(Owned(m.vars[i]), e, Owned(w))
    ensures Inv(r) && r.cap == m.cap && r.vars == m.vars[i := w]
  {
    ReplaceOne(m.vars, i, w, e);
    AllWfReplace(m, i, w);
    Machine(m.cap, m.vars[i := w], Apply(m.live, e).value)
  }

  /** Replaces two distinct variables; the events must account for what they owned. */
  function Commit2<A, R>(m: Machine<A, R>, i: nat, j: nat, wi: Wrapper<A, R>, wj: Wrapper<A, R>, e: seq<Effect>): (r: Machine<A, R>)
    requires Inv(m) && i < |m.vars| && j < |m.vars| && i != j
    requires Wf(wi) && wi.cap == m.cap && Wf(wj) && wj.cap == m.cap
    requires Balanced(Owned(m.vars[i]) + Owned(m.vars[j]), e, Owned(wi) + Owned(wj))
    ensures Inv(r) && r.cap == m.cap && r.vars == m.vars[i := wi][j := wj]
  {
    ReplaceTwo(m.vars, i, j, wi, wj, e);
    var vs := m.vars[i := wi][j := wj];
    AllWfReplace(m, i, wi);
    AllWfReplace(Machine(m.cap, m.vars[i := wi], m.live), j, wj);
    Machine(m.cap, vs, Apply(m.live, e).value)
  }

  /** Declares a new variable, default-constructed. */
  function Push<A, R>(m: Machine<A, R>): (r: Machine<A, R>)
    requires Inv(m)
    ensures Inv(r) && r.cap == m.cap && r.vars == m.vars + [Empty(m.cap)]
  {
    HeldAllAppend(m.vars, Empty(m.cap));
    Machine(m.cap, m.vars + [Empty(m.cap)], m.live)
  }

  /** Runs the destructor of the last declared variable and removes it. */
  function Pop<A, R>(m: Machine<A, R>): (r: Machine<A, R>)
    requires Inv(m) && |m.vars| > 0
    ensures Inv(r) && r.cap == m.cap && r.vars == m.vars[..|m.vars| - 1]
  {
    var n := |m.vars| - 1;
    var e := Destruct(m.vars[n]);
    var m1 := Commit(m, n, Empty(m.cap), e);
    assert m1.vars == m1.vars[..n] + [Empty(m.cap)];
    HeldAllAppend(m1.vars[..n], Empty(m.cap));
    Machine(m.cap, m.vars[..n], m1.live)
  }

  // ---------------------------------------------------------------------------
  // Execution

  /** `function f(functor);` */
  function DeclareFunctorStep<A, R>(m: Machine<A, R>, f: Callable<A, R>): (r: Machine<A, R>)
    requires Inv(m) && f.ty.size <= m.cap
    ensures Inv(r) && r.cap == m.cap && r.vars == m.vars + [FromFunctor(m.cap, f).0]
  {
    var (w, e) := FromFunctor(m.cap, f);
    assert (m.vars + [Empty(m.cap)])[|m.vars| := w] == m.vars + [w];
    Commit(Push(m), |m.vars|, w, e)
  }

  /** `function f(g);` with `g` populated. */
  function DeclareCopyStep<A, R>(m: Machine<A, R>, src: nat): (r: Machine<A, R>)
    requires Inv(m) && src < |m.vars| && Populated(m.vars[src])
    ensures Inv(r) && r.cap == m.cap && r.vars == m.vars + [m.vars[src]]
  {
    var (w, e) := CopyConstruct(m.vars[src]);
    assert (m.vars + [Empty(m.cap)])[|m.vars| := w] == m.vars + [w];
    Commit(Push(m), |m.vars|, w, e)
  }

  /** `function f(std::move(g));` with `g` populated. */
  function DeclareMoveStep<A, R>(m: Machine<A, R>, src: nat): (r: Machine<A, R>)
    requires Inv(m) && src < |m.vars| && Populated(m.vars[src])
    ensures Inv(r) && r.cap == m.cap && r.vars == m.vars[src := Empty(m.cap)] + [m.vars[src]]
  {
    var m1 := Push(m);
    var (w, left, e) := MoveConstruct(m.vars[src]);
    assert m1.vars[src] == m.vars[src];
    assert Owned(m1.vars[|m.vars|]) + Owned(m1.vars[src]) == Owned(m.vars[src]);
    assert (m.vars + [Empty(m.cap)])[|m.vars| := w][src := left] == m.vars[src := Empty(m.cap)] + [w];
    Commit2(m1, |m.vars|, src, w, left, e)
  }

  /** `f = nullptr;` (when `fromNull` holds) or `f.reset();` */
  function ResetStep<A, R>(m: Machine<A, R>, dst: nat, fromNull: bool): (r: Machine<A, R>)
    requires Inv(m) && dst < |m.vars|
    ensures Inv(r) && r.cap == m.cap && r.vars == m.vars[dst := Empty(m.cap)]
  {
    var (w, e) := if fromNull then AssignNull(m.vars[dst]) else Reset(m.vars[dst]);
    Commit(m, dst, w, e)
  }

  /** `f = functor;` */
  function AssignFunctorStep<A, R>(m: Machine<A, R>, dst: nat, f: Callable<A, R>): (r: Machine<A, R>)
    requires Inv(m) && dst < |m.vars| && f.ty.size <= m.cap
    ensures Inv(r) && r.cap == m.cap && r.vars == m.vars[dst := FromFunctor(m.cap, f).0]
  {
    var (w, e) := AssignFunctor(m.vars[dst], f);
    AssignFunctorForgetsPrior(m.vars[dst], m.vars[dst], f);
    Commit(m, dst, w, e)
  }

  /** `f = g;`, where `f` and `g` may be the same variable. */
  function AssignCopyStep<A, R>(m: Machine<A, R>, dst: nat, src: nat): (r: Machine<A, R>)
    requires Inv(m) && dst < |m.vars| && src < |m.vars|
    ensures Inv(r) && r.cap == m.cap
    ensures r.vars == m.vars[dst := if dst != src && Populated(m.vars[src]) then m.vars[src] else Empty(m.cap)]
  {
    if dst == src then
      var (w, e) := SelfAssignCopy(m.vars[dst]);
      Commit(m, dst, w, e)
    else
      var (w, e) := AssignCopy(m.vars[dst], m.vars[src]);
      Commit(m, dst, w, e)
  }

  /** `f = std::move(g);`, where `f` and `g` may be the same variable. */
  function AssignMoveStep<A, R>(m: Machine<A, R>, dst: nat, src: nat): (r: Machine<A, R>)
    requires Inv(m) && dst < |m.vars| && src < |m.vars|
    ensures Inv(r) && r.cap == m.cap
    ensures r.vars == m.vars[dst := if dst != src && Populated(m.vars[src]) then m.vars[src] else Empty(m.cap)]
                            [src := if dst != src && !Populated(m.vars[src]) then m.vars[src] else Empty(m.cap)]
  {
    if dst == src then
      var (w, e) := SelfAssignMove(m.vars[dst]);
      Commit(m, dst, w, e)
    else
      var (d, left, e) := AssignMove(m.vars[dst], m.vars[src]);
      Commit2(m, dst, src, d, left, e)
  }

  /** `f.swap(g);`, where `f` and `g` may be the same variable. */
  function SwapStep<A, R>(m: Machine<A, R>, dst: nat, src: nat): (r: Machine<A, R>)
    requires Inv(m) && dst < |m.vars| && src < |m.vars|
    ensures Inv(r) && r.cap == m.cap && r.live == m.live
    ensures r.vars == m.vars[dst := m.vars[src]][src := m.vars[dst]]
  {
    if dst == src then m
    else
      var (x, y) := Swap(m.vars[dst], m.vars[src]);
      assert Owned(x) + Owned(y) == Owned(m.vars[dst]) + Owned(m.vars[src]);
      Commit2(m, dst, src, x, y, [])
  }

  /** Executes one statement C++ gives a meaning to. */
  function Exec<A, R>(m: Machine<A, R>, s: Stmt<A, R>): (r: Machine<A, R>)
    requires Inv(m) && Defined(m, s)
    ensures Inv(r) && r.cap == m.cap
  {
    match s
    case DeclareEmpty => Push(m)
    case DeclareFunctor(f) => DeclareFunctorStep(m, f)
    case DeclareCopy(src) => DeclareCopyStep(m, src)
    case DeclareMove(src) => DeclareMoveStep(m, src)
    case NullAssignment(dst) => ResetStep(m, dst, true)
    case ResetVar(dst) => ResetStep(m, dst, false)
    case FunctorAssignment(dst, f) => AssignFunctorStep(m, dst, f)
    case CopyAssignment(dst, src) => AssignCopyStep(m, dst, src)
    case MoveAssignment(dst, src) => AssignMoveStep(m, dst, src)
    case SwapVars(dst, src) => SwapStep(m, dst, src)
    case EndScope => Pop(m)
  }

  /** Executes one statement; `None` for a statement C++ gives no meaning to. */
  function Step<A, R>(m: Machine<A, R>, s: Stmt<A, R>): (r: Option<Machine<A, R>>)
    requires Inv(m)
    ensures r.Some? ==> Inv(r.value) && r.value.cap == m.cap
  {
    if Defined(m, s) then Some(Exec(m, s)) else None
  }

  /** Executes a program; `None` as soon as a statement has no meaning. */
  function Run<A, R>(m: Machine<A, R>, prog: seq<Stmt<A, R>>): (r: Option<Machine<A, R>>)
    requires Inv(m)
    ensures r.Some? ==> Inv(r.value) && r.value.cap == m.cap
    decreases |prog|
  {
    if |prog| == 0 then Some(m)
    else
      match Step(m, prog[0])
      case None => None
      case Some(m1) => Run(m1, prog[1..])
  }

  /** A program's starting point: no variables, no live objects. */
  function Start<A, R>(cap: nat): (m: Machine<A, R>)
    ensures Inv(m) && m.vars == [] && m.live == multiset{}
  {
    Machine(cap, [], multiset{})
  }

  /** `n` scope ends in a row. */
  function EndScopes<A, R>(n: nat): (prog: seq<Stmt<A, R>>)
    ensures |prog| == n
    decreases n
  {
    if n == 0 then [] else [EndScope] + EndScopes(n - 1)
  }

  // ---------------------------------------------------------------------------
  // Properties of whole programs

  /** When every variable has gone out of scope, every object the table ever
      constructed has been destroyed exactly once. */
  lemma {:induction false} LeavingEveryScopeDestroysEverything<A, R>(m: Machine<A, R>)
    requires Inv(m)
    ensures Run(m, EndScopes(|m.vars|)) == Some(Machine(m.cap, [], multiset{}))
    decreases |m.vars|
  {
    var n := |m.vars|;
    if n == 0 {
    } else {
      var prog := EndScopes<A, R>(n);
      assert prog[0] == EndScope && prog[1..] == EndScopes(n - 1);
      var m1 := Step(m, EndScope).value;
      LeavingEveryScopeDestroysEverything(m1);
    }
  }

  /** Emptying variable `d` takes out of the ledger exactly what `d` owned. */
  lemma EmptyingLedger<A, R>(m: Machine<A, R>, r: Machine<A, R>, d: nat)
    requires Inv(m) && Inv(r) && d < |m.vars| && r.vars == m.vars[d := Empty(m.cap)]
    ensures r.live + Owned(m.vars[d]) == m.live
  {
    HeldAllUpdate(m.vars, d, Empty(m.cap));
    assert HeldAll(m.vars) + Owned(Empty<A, R>(m.cap)) == HeldAll(m.vars);
  }

  /** `f = f;` as a statement: the variable ends up empty, the others keep their
      state, and the object it held has been destroyed. */
  lemma SelfCopyAssignmentEmpties<A, R>(m: Machine<A, R>, d: nat)
    requires Inv(m) && d < |m.vars|
    ensures Step(m, CopyAssignment(d, d)).Some?
    ensures Step(m, CopyAssignment(d, d)).value.vars == m.vars[d := Empty(m.cap)]
    ensures Step(m, CopyAssignment(d, d)).value.live + Owned(m.vars[d]) == m.live
  {
    var r := AssignCopyStep(m, d, d);
    assert Step(m, CopyAssignment(d, d)) == Some(r);
    EmptyingLedger(m, r, d);
  }

  /** `f = std::move(f);` as a statement: the same as `f = f;`. */
  lemma SelfMoveAssignmentEmpties<A, R>(m: Machine<A, R>, d: nat)
    requires Inv(m) && d < |m.vars|
    ensures Step(m, MoveAssignment(d, d)).Some?
    ensures Step(m, MoveAssignment(d, d)).value.vars == m.vars[d := Empty(m.cap)]
    ensures Step(m, MoveAssignment(d, d)).value.live + Owned(m.vars[d]) == m.live
  {
    var r := AssignMoveStep(m, d, d);
    assert r.vars == m.vars[d := Empty(m.cap)];
    assert Step(m, MoveAssignment(d, d)) == Some(r);
    EmptyingLedger(m, r, d);
  }

  /** Swapping two variables twice, or one variable with itself, changes nothing. */
  lemma SwapTwiceRestores<A, R>(m: Machine<A, R>, a: nat, b: nat)
    requires Inv(m) && a < |m.vars| && b < |m.vars|
    ensures SwapStep(SwapStep(m, a, b), a, b) == m
    ensures a == b ==> SwapStep(m, a, b) == m
  {
    var m1 := SwapStep(m, a, b);
    var m2 := SwapStep(m1, a, b);
    assert m1.vars[a] == m.vars[b] && m1.vars[b] == m.vars[a];
    assert m2.vars == m1.vars[a := m.vars[a]][b := m.vars[b]];
    assert forall k | 0 <= k < |m.vars| :: m2.vars[k] == m.vars[k];
    assert m2.vars == m.vars;
    assert m2.live == m.live;
  }

  /** `f = std::move(g);` with the move as written, between distinct variables
      with `g` populated: after it the ledger holds every object the variables
      own plus the moved-from object left in `g`'s storage, so the ledger no
      longer matches ownership and the machine invariant is broken. */
  lemma MoveAssignmentAsWrittenLeaks<A, R>(m: Machine<A, R>, dst: nat, src: nat)
    requires Inv(m) && dst < |m.vars| && src < |m.vars| && dst != src && Populated(m.vars[src])
    ensures var (d, left, e) := AssignMoveAsWritten(m.vars[dst], m.vars[src]);
            Apply(m.live, e) == Some(HeldAll(m.vars[dst := d][src := left]) + multiset{m.vars[src].storage.value.ty})
            && Apply(m.live, e) != Some(HeldAll(m.vars[dst := d][src := left]))
  {
    var (d, left, e) := AssignMoveAsWritten(m.vars[dst], m.vars[src]);
    var t := m.vars[src].storage.value.ty;
    assert Owned(m.vars[src]) == multiset{t};
    ReplaceTwoLeaving(m.vars, dst, src, d, left, e, multiset{t});
    var h := HeldAll(m.vars[dst := d][src := left]);
    assert (h + multiset{t})[t] == h[t] + 1;
  }
}

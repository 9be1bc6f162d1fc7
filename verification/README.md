# fixed_size_function, modelled in Dafny

`fixed_size_function<Ret(Args...), MaxSize>` is a `std::function` replacement
that never allocates. The callable lives in an inline `MaxSize`-byte storage
cell. Four function pointers (`call_`, `destroy_`, `copy_`, `move_`) form an
operation table bound to the callable's concrete type. Every constructor,
assignment, `reset`, `swap` and the destructor must keep the table and the
storage consistent. The table is all null exactly when no object lives in the
storage. Each object the table constructs must be destroyed exactly once.

The model has four modules:

- `Functors` (`functors.dfy`) has the callable types and the four kinds of
  object-lifetime event the table performs. These are construction (by
  `create`), copy-construction, move-construction and destruction. `Apply`
  replays events on a multiset of live objects. `Balanced(before, e, after)`
  says the events `e` take the live objects `before` exactly to `after`: no
  destructor on a dead object, no object constructed and then lost.
- `FixedSizeFunction` (`fixed_size_function.dfy`) has the wrapper state.
  `Wrapper` holds the capacity, the four table entries and the storage cell.
  Every member function is a pure function returning the new state(s) and the
  events it performed. `Wf` is the class invariant: the table is all null
  exactly when the storage is empty, otherwise bound to the stored type, and
  the stored type fits in `MaxSize`.
- `Programs` (`programs.dfy`) runs straight-line programs over several wrapper
  variables. This lets one statement name the same variable twice (`f = f`,
  `f = std::move(f)`, `f.swap(f)`). The machine keeps a ledger of live objects
  driven only by the events. Its invariant `Inv` says every variable is well
  formed and the ledger equals what the variables own.
- `Scenario` (`scenario.dfy`) replays `main` of the demonstration program
  (`tests.cpp`) on that machine, check by check.

Inputs the C++ receives but the model does not see become parameters. The
functor's type and `sizeof` are a `FunctorType`. Calling a functor is a pure
function `A -> R`. The capacity `MaxSize` is the `cap` field.

## Model

| member | source | states |
|---|---|---|
| `FixedSizeFunction.Wf` | fixed_size_function.hpp:243-248 | The class invariant over the four table pointers and `storage_`: in a well-formed wrapper `call_` and `destroy_` are null exactly when no object lives in the storage, and when one does it fits in `MaxSize` and `destroy_` is bound to its type. |
| `FixedSizeFunction.Empty` | fixed_size_function.hpp:27-38 | The default and `nullptr_t` constructors give a well-formed wrapper with all four entries null; it converts to `false`, equals `nullptr` and owns no object. |
| `FixedSizeFunction.Populated` | fixed_size_function.hpp:134 | `operator bool` tests only `call_`, yet for a well-formed wrapper it is true exactly when an object lives in the storage, and exactly when the table is not all null. |
| `FixedSizeFunction.EqualsNull` | fixed_size_function.hpp:157-165 | `f == nullptr` (both argument orders) is the negation of `operator bool`; for a well-formed wrapper it holds exactly when the storage is empty and the table all null. |
| `FixedSizeFunction.NotEqualsNull` | fixed_size_function.hpp:167-175 | Corrected to `return static_cast<bool>(f);`: `f != nullptr` (both argument orders) is the negation of `f == nullptr`, holds exactly when a callable is stored, and is what the conversion to `bool` yields when `explicit` conversions are allowed. |
| `FixedSizeFunction.ToBool` | fixed_size_function.hpp:134 | The only conversion to `bool` is `explicit`, so a conversion succeeds exactly when it may use `explicit` conversion functions (direct-initialisation or contextual conversion, as in `!f`), and then yields `operator bool`'s value. |
| `FixedSizeFunction.NotEqualsNullAsWritten` | fixed_size_function.hpp:167-175 | As written, `return f;` copy-initialises the `bool` result, which cannot use the `explicit` conversion, so `operator!=` against `nullptr` has no meaning for any wrapper. |
| `FixedSizeFunction.NotEqualsNullAsWrittenRejected` | fixed_size_function.hpp:167-175 | For every wrapper, `operator!=` as written is rejected, while the intended `static_cast<bool>(f)` is defined and is the negation of `f == nullptr`. |
| `FixedSizeFunction.Invoke` | fixed_size_function.hpp:136-139 | Calling needs an object behind a non-null `call_`. It throws exactly when `call_` is null, and the error is `bad_function_call`. Otherwise it returns what the stored callable returns for the arguments; on a well-formed wrapper that is whenever a callable is stored. |
| `FixedSizeFunction.Create` | fixed_size_function.hpp:178-190 | `create` needs the functor's size to be at most `MaxSize`; it stores the functor, binds all four entries to its type and performs one construction, which is balanced when the storage was empty. |
| `FixedSizeFunction.FromFunctor` | fixed_size_function.hpp:84-88 | Constructing from a functor yields a well-formed, populated wrapper holding that functor, whose only event is one construction of the functor's type, leaving nothing else alive. |
| `FixedSizeFunction.Reset` | fixed_size_function.hpp:122-132 | `reset` keeps the capacity; with `destroy_` set it clears the whole table and storage, and otherwise changes nothing. On a well-formed wrapper the result is the empty wrapper, one destruction happens exactly when it was populated, and no object is left alive. |
| `FixedSizeFunction.AssignNull` | fixed_size_function.hpp:45-49 | `f = nullptr` leaves the wrapper equal to a default-constructed one and performs events exactly when it was populated; whatever it owned is destroyed. |
| `FixedSizeFunction.Destruct` | fixed_size_function.hpp:40-43 | The destructor destroys whatever the wrapper owned, with one event per owned object, and leaves nothing alive. |
| `FixedSizeFunction.CopyInto` | fixed_size_function.hpp:192-203 | Private `copy` makes the destination a copy of a populated source with exactly one copy-construction; from an empty source it leaves the destination untouched. It keeps the invariant and is balanced into an empty destination. |
| `FixedSizeFunction.CopyConstruct` | fixed_size_function.hpp:51-54 | The copy constructor from a populated source yields a wrapper equal to the source, whose only event is one copy-construction of the source's type, so nothing is destroyed. |
| `FixedSizeFunction.AssignCopy` | fixed_size_function.hpp:97-101 | Copy-assigning a distinct wrapper gives a copy of the source, or the empty wrapper when the source is empty, and keeps the invariant. The events are exactly the destruction of the prior object, if any, followed by one copy-construction when the source is populated; they leave alive exactly what the result owns. |
| `FixedSizeFunction.SelfAssignCopy` | fixed_size_function.hpp:97-101 | Copy-assigning a wrapper to itself empties it: `reset` nulls `copy_` before `copy` reads it, so the only event is the destruction of the held object, and there is none when it was empty. |
| `FixedSizeFunction.MoveFrom` | fixed_size_function.hpp:205-216 | Private `move` (corrected) hands a populated source's state to the destination and leaves the source empty; from an empty source it changes nothing. The events keep both wrappers' objects balanced. |
| `FixedSizeFunction.MoveConstruct` | fixed_size_function.hpp:73-76 | With the corrected move: the move constructor from a populated source yields a wrapper equal to the source and leaves the source empty and `false`. The events are one move-construction then the destruction of the moved-from object, so the number of live objects is unchanged. |
| `FixedSizeFunction.AssignMove` | fixed_size_function.hpp:109-113 | With the corrected move: move-assigning a distinct wrapper takes over a populated source's state and empties the source; an empty source empties the target and is itself unchanged. The events are exactly the destruction of the prior object, if any, then a move-construction and the destruction of the moved-from object when the source is populated; they leave alive exactly the objects the two wrappers own afterwards. |
| `FixedSizeFunction.SelfAssignMove` | fixed_size_function.hpp:109-113 | Move-assigning a wrapper to itself empties it, with its object destroyed once. |
| `FixedSizeFunction.AssignFunctor` | fixed_size_function.hpp:115-120 | Assigning a functor that fits stores exactly that functor in a well-formed wrapper. The events are exactly the destruction of the prior object, if any, followed by one construction of the new one. |
| `FixedSizeFunction.Swap` | fixed_size_function.hpp:141-155 | Member and free `swap` exchange the two wrappers' whole states and neither create nor destroy objects. |
| `FixedSizeFunction.TransitionsPreserveWf` | fixed_size_function.hpp:45-155 | With the corrected move: every mutating operation on well-formed wrappers yields well-formed wrappers. |
| `FixedSizeFunction.InvokeAfterTransitions` | fixed_size_function.hpp:27-139 | An empty, reset or moved-from wrapper throws `bad_function_call`, including one left by the move as written. A wrapper built from or assigned a functor returns what the functor returns. Copies and move targets call the same functor as their source. |
| `FixedSizeFunction.ResetIdempotent` | fixed_size_function.hpp:122-132 | `reset` twice is `reset` once, and the second `reset` performs no event; `reset` of an empty wrapper is a no-op. |
| `FixedSizeFunction.SwapInvolution` | fixed_size_function.hpp:141-150 | Swapping twice restores both wrappers. |
| `FixedSizeFunction.MoveRoundTrip` | fixed_size_function.hpp:109-113 | With the corrected move: moving a wrapper into an empty one and back restores both. |
| `FixedSizeFunction.MoveRoundTripAsWritten` | fixed_size_function.hpp:109-113 | With the move as written, moving a populated wrapper into an empty one and back restores the first. The second keeps the moved-from object in its storage under a null table, and is no longer well formed. |
| `FixedSizeFunction.AssignFunctorForgetsPrior` | fixed_size_function.hpp:115-120 | After assigning a functor, the state depends only on the capacity and the functor, and equals the state of a wrapper constructed from that functor. |
| `FixedSizeFunction.MoveFromAsWritten` | fixed_size_function.hpp:205-216 | Private `move` as written: a populated source is handed to the destination with exactly one move-construction and no destruction, and the source is left with a null table over a storage that still holds the moved-from object, a state that breaks the invariant and owns nothing. An empty source changes nothing. |
| `FixedSizeFunction.MoveFromAsWrittenDiffers` | fixed_size_function.hpp:205-216 | The move as written and the corrected move give the destination the same state. The sources differ only in the moved-from object the move as written leaves in the storage, and the events only in that object's destruction. |
| `FixedSizeFunction.MoveFromAsWrittenLeaks` | fixed_size_function.hpp:205-216 | For every populated source moved into an empty wrapper, the move as written is not balanced: one more object is alive than the two wrappers own. |
| `FixedSizeFunction.MoveConstructAsWritten` | fixed_size_function.hpp:73-76 | The move constructor with the move as written: the new wrapper takes the source's state and the source breaks the invariant. The events leave one more object alive than the two wrappers own, so they are not balanced. |
| `FixedSizeFunction.AssignMoveAsWritten` | fixed_size_function.hpp:109-113 | Move assignment with the move as written: the destination ends up as with the corrected move, and an empty source is unchanged. For a populated source, the source breaks the invariant. The events are exactly the destruction of the prior object, if any, then one move-construction when the source is populated, with no destruction of the moved-from object. They leave one more object alive than the two wrappers own, so they are not balanced. |
| `Functors.Relocation` | fixed_size_function.hpp:237-241 | Move-constructing the object elsewhere and then destroying the moved-from one leaves the set of live objects unchanged. |
| `Functors.RelocationWithoutDestroy` | fixed_size_function.hpp:237-241 | Move-constructing the object elsewhere without destroying the moved-from one leaves two objects alive, so it is not balanced. |
| `Programs.DefinedExactly` | fixed_size_function.hpp:51-88 | A statement has a meaning exactly when every variable it names is in scope, a functor it stores fits in `MaxSize` (the `static_assert` of line 182), the source of a copy or move constructor is populated (the constructors of lines 51-54 and 73-76 leave the table uninitialised otherwise), and a scope is open to close. |
| `Programs.Push` | fixed_size_function.hpp:27-33 | Declaring a default-constructed variable keeps the machine invariant and appends an empty wrapper. |
| `Programs.Pop` | fixed_size_function.hpp:40-43 | A variable going out of scope runs the destructor; the invariant holds over the remaining variables. |
| `Programs.DeclareFunctorStep` | fixed_size_function.hpp:84-88 | `function f(functor);` appends a wrapper holding the functor and keeps the ledger. |
| `Programs.DeclareCopyStep` | fixed_size_function.hpp:51-54 | `function f(g);` appends a copy of `g` and keeps the ledger. |
| `Programs.DeclareMoveStep` | fixed_size_function.hpp:73-76 | With the corrected move: `function f(std::move(g));` appends `g`'s former state, leaves `g` empty, and keeps the ledger. |
| `Programs.ResetStep` | fixed_size_function.hpp:45-49 | `f = nullptr;` and `f.reset();` empty that variable only and keep the ledger. |
| `Programs.AssignFunctorStep` | fixed_size_function.hpp:90-95 | `f = functor;` makes that variable the wrapper constructed from the functor and keeps the ledger. |
| `Programs.AssignCopyStep` | fixed_size_function.hpp:56-60 | `f = g;` makes `f` a copy of a populated, distinct `g` and otherwise empties `f`, including when `f` and `g` are the same variable. `g` is unchanged and the ledger is kept. |
| `Programs.AssignMoveStep` | fixed_size_function.hpp:78-82 | With the corrected move: `f = std::move(g);` with distinct variables moves `g`'s state into `f` and empties `g` when `g` is populated; otherwise it empties `f`, including self-move. The ledger is kept. |
| `Programs.SwapStep` | fixed_size_function.hpp:141-155 | `f.swap(g)` exchanges the two variables (a no-op when they are the same) and leaves the set of live objects unchanged. |
| `Programs.Exec` | fixed_size_function.hpp:27-155 | With the corrected move: every statement C++ gives a meaning to keeps the machine invariant. |
| `Programs.Run` | fixed_size_function.hpp:27-155 | With the corrected move: any program whose statements all have a meaning keeps the invariant, so at every point each constructed object is owned by exactly one variable. |
| `Programs.LeavingEveryScopeDestroysEverything` | fixed_size_function.hpp:40-43 | When every variable goes out of scope, the ledger is empty: every object the table constructed was destroyed exactly once. |
| `Programs.SelfCopyAssignmentEmpties` | fixed_size_function.hpp:97-101 | `f = f;` empties `f`, leaves the other variables alone and removes `f`'s object from the ledger. |
| `Programs.SelfMoveAssignmentEmpties` | fixed_size_function.hpp:109-113 | `f = std::move(f);` empties `f`, leaves the other variables alone and removes `f`'s object from the ledger. |
| `Programs.SwapTwiceRestores` | fixed_size_function.hpp:141-155 | Swapping two variables twice restores the whole machine, and swapping a variable with itself changes nothing. |
| `Programs.MoveAssignmentAsWrittenLeaks` | fixed_size_function.hpp:109-113 | `f = std::move(g);` with the move as written, for distinct variables and a populated `g`: the ledger ends up holding every object the variables own plus one more, the moved-from object, so the machine invariant is broken. |
| `Scenario.Main` | tests.cpp:66-139 | `main` is eighteen statements: the four declarations, then ten statements that touch only `fun`, `fun2` and `fun3`, each naming at least one of them, then the four variables leaving scope. |
| `Scenario.DeclarationsChecks` | tests.cpp:70-83 | In `main`, `fun0` is empty, `fun(1)`, `fun2(2)` and the copy `fun3(3)` return their argument. |
| `Scenario.MoveChecks` | tests.cpp:85-88 | With the corrected move: after `fun2 = std::move(fun)`, `fun2(4)` returns 4, `fun` is empty, and the four variables are in the states the rest of `main` starts from. The two checks of lines 87-88 hold with the move as written too (`Scenario.MoveLineAsWrittenLeaks`). |
| `Scenario.MoveLineAsWrittenLeaks` | tests.cpp:85-88 | With the move as written, `fun2 = std::move(fun);` gives `fun2` the functor `X` but leaves the moved-from `X` in `fun`'s storage under a null table. The ledger then holds one more `X` than the four variables own, and nothing will destroy it. |
| `Scenario.CopyChecks` | tests.cpp:90-93 | After `fun = fun2`, both are populated. |
| `Scenario.SwapChecks` | tests.cpp:95-98 | After `fun.reset(); fun2.swap(fun);`, `fun` is populated and `fun2` is empty. |
| `Scenario.AssignChecks` | tests.cpp:100-118 | After assigning any fitting callable that returns its argument, `fun(k)` returns `k`. |
| `Scenario.ClearChecks` | tests.cpp:120-138 | After `fun = nullptr; fun3.reset();`, both are empty, `fun == nullptr`, and `fun(0)` throws `bad_function_call`. |
| `Scenario.MainDestroysEverything` | tests.cpp:66-139 | With the corrected move: the whole of `main` is well defined, and when it returns no callable the wrappers constructed is still alive. |

## Left out

- Byte layout is not modelled: `aligned_storage`, alignment, and the placement-new addresses (line 248). The storage is an abstract cell holding at most one object.
- `Swap` exchanges the storage cells as values. The C++ swaps the raw bytes of `storage_` (line 149), which relocates the objects without their move constructors. That is only sound for trivially relocatable callables, and the model assumes it.
- The compile-time parts are not modelled: `result_type`, `arity` and `argument<N>` (lines 16-25). Arity and argument types become the type parameter `A`, and argument forwarding is not modelled.
- The duplicate non-const overloads (lines 62-71 and 103-107) have the same bodies as the const ones, so each pair is one member.
- Callables are pure functions of their arguments. A stateful callable whose call mutates the stored object is not modelled.
- Object identity in the ledger is approximated by functor type: the ledger is a multiset of types, not of addresses.
- FixedSizeFunction.CopyConstruct: requires a populated source. From an empty source the copy constructor leaves the four pointers uninitialised (lines 51-54, 62-65), which is undefined behaviour; `Programs.Defined` likewise gives `function f(g);` with an empty `g` no meaning.
- FixedSizeFunction.MoveConstruct: requires a populated source, for the same reason (lines 73-76). It also uses the corrected move; the move as written is `FixedSizeFunction.MoveConstructAsWritten` (see Findings).
- FixedSizeFunction.NotEqualsNull: models the intended `return static_cast<bool>(f);`. As written, both overloads are rejected at compile time once used (see Findings and `FixedSizeFunction.NotEqualsNullAsWritten`).
- FixedSizeFunction.MoveRoundTrip: holds with the corrected move only. With the move as written, the wrapper that started empty keeps the moved-from object (`FixedSizeFunction.MoveRoundTripAsWritten`).
- FixedSizeFunction.AssignMove: uses the corrected move, so its events destroy the moved-from object. The move as written does not; see `FixedSizeFunction.AssignMoveAsWritten` and Findings.
- FixedSizeFunction.TransitionsPreserveWf: covers the corrected move only. The move as written leaves the source outside the invariant (`FixedSizeFunction.MoveFromAsWritten`).
- Programs.DeclareMoveStep: runs the corrected move. With the move as written the ledger would keep the moved-from object (`Programs.MoveAssignmentAsWrittenLeaks` shows this for move assignment).
- Programs.AssignMoveStep: runs the corrected move. With the move as written the invariant breaks (`Programs.MoveAssignmentAsWrittenLeaks`).
- Programs.Exec: the invariant it keeps holds for the corrected move only, through `Programs.DeclareMoveStep` and `Programs.AssignMoveStep`.
- Programs.Run: as for `Programs.Exec`, the invariant holds for the corrected move only.
- Scenario.MoveChecks: states that `fun` equals the empty wrapper after line 86, which holds with the corrected move only. With the move as written, `fun`'s storage still holds the moved-from `X`, though `!fun` still holds (`Scenario.MoveLineAsWrittenLeaks`).
- Scenario.MainDestroysEverything: holds for the corrected move only. With the move as written, line 86 leaves one `X` alive that nothing destroys (`Scenario.MoveLineAsWrittenLeaks`).
- Exceptions from the callables are not modelled. Their copy, move and converting constructors, and their calls, are assumed not to throw. In the C++, a throw from `copy_`, `move_` or the placement-new in `create` (lines 100, 112, 119, 184) comes after `reset` (lines 99, 111, 118), so the wrapper is left empty and the exception propagates to the caller.
- Nothing is modelled about threads: concurrent use of one wrapper is undefined.
- The demonstration's I/O is not modelled: printing to `std::cout`, the `ensure` macro's report on `std::cerr`, and the concrete callables (`X`, `f`, the `std::bind` results, the lambda). The scenario only uses that each returns its argument and fits in 256 bytes.

## Findings

| source | as written | input that shows it | evidently intended | confidence | as-written member | corrected member |
|---|---|---|---|---|---|---|
| fixed_size_function.hpp:205-216 | `move` move-constructs the source's object into this storage, then nulls the source's four entries, including `destroy_`, without calling `src.destroy_` on the moved-from object still living in `src.storage_`. That object's destructor never runs. | `fun2 = std::move(fun)` at tests.cpp:86, with `fun` holding the functor `X`: the user-provided `~X()` (tests.cpp:46-49) never runs for the moved-from `X` left in `fun`'s storage. With a functor that has a copy constructor, no move constructor and a `std::string` member, the copied-from string is never freed. | After `move_` constructs the new object, destroy the moved-from one (`src.destroy_(&src.storage_)`) before nulling the source's table, so each constructed object is destroyed exactly once. | high; not executed | `FixedSizeFunction.MoveFromAsWritten` (see `FixedSizeFunction.MoveFromAsWrittenLeaks`, `FixedSizeFunction.AssignMoveAsWritten`, `Scenario.MoveLineAsWrittenLeaks`) | `FixedSizeFunction.MoveFrom` |
| fixed_size_function.hpp:167-175 | Both `operator!=` overloads against `nullptr` end in `return f;` in a function returning `bool`. A `return` copy-initialises its result, and copy-initialisation never uses the wrapper's only conversion, `explicit operator bool` (line 134). | `fun != nullptr` or `nullptr != fun` for any wrapper `fun`: the program is rejected at compile time. The demonstration never uses `!=`, so it does not show there. | `return static_cast<bool>(f);` (or `return !!f;`), the negation of `operator==`. | high; not executed | `FixedSizeFunction.NotEqualsNullAsWritten` (see `FixedSizeFunction.NotEqualsNullAsWrittenRejected`) | `FixedSizeFunction.NotEqualsNull` |

# deferral: scope guards with exit-condition policies

A model of the scope-guard object of the `deferral` header library. A guard
holds one nullary callable and one exit-condition policy. When the guard is
destroyed at the end of its scope, it runs the callable if and only if the
policy's `should_execute()` holds at that moment. There are four policies:

- NoCheck always fires, and its `release()` does nothing.
- OnExit keeps an `active` flag, which `release()` clears.
- OnFail snapshots `std::uncaught_exceptions()` at construction. It fires when
  the count at destruction is strictly greater. `release()` stores `INT_MAX`.
- OnSuccess takes the same snapshot. It fires when the count at destruction is
  at most the snapshot. `release()` stores `-1`.

Move construction copies the source's policy state, moves its callable, then
calls `release()` on the source. The guard types `DeferExit`, `DeferFail` and
`DeferSuccess`, the `make_defer_*` factories, the `operator+` overloads on tag
enums and the `DEFER*` macros differ only in the policy they select.

Files:

- `policies.dfy` (module `Policies`): the policy states as one datatype, with
  construction (`Init`), `release()` (`Released`) and `should_execute()`
  (`ShouldExecute`), and the lemmas about each policy.
- `guards.dfy` (module `Guards`): the class `DeferBase`. Its `policy` field is
  updated in place by `Release` and by the move constructor `Move` (on the
  source). `Destroy` is the destructor. Running the callable appends the
  callable's identity to a shared `ActionLog`.
- `scopes.dfy` (module `Scopes`): the end of a scope holding several guards.
  C++ destroys them in reverse order of construction. `ScopeExit` is this on
  values; `ExitScope` is the same on guard objects. Lemmas relate it to the
  firing guards in registration order.
- `selection.dfy` (module `Selection`): the guard types, factories, tag enums
  and macros, and the policy each one selects.
- `scenarios.dfy` (module `Scenarios`): the scenarios of
  `tests/deferral_test.cc`, replayed on the class. The variables `x`, `y`, `z`
  are returned as the values the test checks.

The count `std::uncaught_exceptions()` is an input, `uncaught`, in the range
`0 ..= INT_MAX`. Snapshots are C++ `int`s (`CInt`). A `throw` out of a scope is
modelled as tearing its guards down with `uncaught + 1`. A normal exit tears
them down with the count the guards were built at.

The move constructor calls `other.release()` to disarm the source
(`include/deferral.hh:207`). NoCheck's `release()` is a no-op
(`include/deferral.hh:130`), so a moved-from NoCheck guard is still armed.
When both guards are destroyed, the action runs twice (`Scenarios.TestMove`).
Only the anonymous `DEFER` macro selects NoCheck. Its guard is built from a
prvalue, so it is never moved from in C++17 (`Selection.MacroPolicy`).

## Model

| member | source | states |
|---|---|---|
| `Policies.ShouldExecute` | include/deferral.hh:125-165 | `should_execute()`: NoCheck fires for every count, and so does an OnExit policy until it is released. The answers of OnFail and OnSuccess are proved in `OnFailExecutesIff`, `OnSuccessExecutesIff` and `FailSuccessComplementary`, and NoCheck's in `NoCheckAlwaysExecutes`. |
| `Policies.Init` | include/deferral.hh:134-165 | A new policy has the requested kind. Torn down at its construction count, it fires unless it is OnFail. Torn down with one more exception in flight, it fires unless it is OnSuccess. |
| `Policies.Released` | include/deferral.hh:130-163 | `release()` keeps the policy kind. For NoCheck it changes nothing, so the policy fires for every `int` count. For the other three it disarms the policy for every count `std::uncaught_exceptions()` can return. |
| `Policies.NoCheckAlwaysExecutes` | include/deferral.hh:130-131 | NoCheck's `should_execute()` is true for every count, and its `release()` leaves it unchanged. |
| `Policies.OnExitLifecycle` | include/deferral.hh:134-142 | A fresh OnExit policy fires at any count. Once released, it fires at none. |
| `Policies.ReleaseIdempotent` | include/deferral.hh:130-163 | Releasing twice leaves the same state as releasing once, for every policy. |
| `Policies.OnFailExecutesIff` | include/deferral.hh:145-154 | An unreleased OnFail policy fires iff the current count is strictly greater than its snapshot. |
| `Policies.OnSuccessExecutesIff` | include/deferral.hh:156-165 | An unreleased OnSuccess policy fires iff the current count is at most its snapshot. |
| `Policies.FailSuccessComplementary` | include/deferral.hh:153-164 | With the same snapshot and the same count, OnFail and OnSuccess give opposite answers. |
| `Policies.ReleasedOnFailNeverExecutes` | include/deferral.hh:152-153 | A released OnFail policy (snapshot `INT_MAX`) fires for no `int` count. |
| `Policies.ReleasedOnSuccessSentinel` | include/deferral.hh:163-164 | A released OnSuccess policy (snapshot -1) fires for no non-negative count. It would fire at count -1, so the sentinel relies on the count never being negative. |
| `Guards.Teardown` | include/deferral.hh:220-222 | Destroying a guard adds at most one entry to the log. It adds exactly one iff `should_execute()` holds at that moment, and that entry is the guard's own callable. |
| `Guards.DeferBase.constructor` | include/deferral.hh:195-197 | A new guard stores the callable and a freshly constructed policy of the selected kind, which snapshots the current count. |
| `Guards.DeferBase.Move` | include/deferral.hh:205-208 | The destination gets the source's policy state and callable. The source's policy state becomes its released state. |
| `Guards.DeferBase.Release` | include/deferral.hh:234-239 | `release()` replaces the policy state with its released state. |
| `Guards.DeferBase.Destroy` | include/deferral.hh:215-222 | The destructor appends the teardown effect for the current count to the log. It leaves the policy state unchanged and runs once. |
| `Guards.MoveHandsOverFiring` | include/deferral.hh:205-208 | Tearing down both guards of a move (the destination holding the source's old state, the source released) runs what the source alone would have run, plus one more run of the same action when the policy is NoCheck, whose `release()` does nothing (`include/deferral.hh:130`). |
| `Guards.ReleasedGuardIsInert` | include/deferral.hh:234-239 | A released guard with a checked policy runs nothing at teardown, whatever the count. |
| `Scopes.ScopeExit` | include/deferral.hh:424-427 | Leaving a scope runs no more actions than the scope has guards. |
| `Scopes.ReversedAt` | include/deferral.hh:424-427 | Reversal, the order in which a scope's guards are destroyed, puts element `k` of a sequence of length `n` at position `n - 1 - k`. |
| `Scopes.ScopeExitIsReversedRegistration` | include/deferral.hh:424-427 | Leaving a scope runs exactly the actions of the guards that should fire, in reverse registration order. |
| `Scopes.ScopeExitAtMostOnce` | include/deferral.hh:210-232 | The actions run at the end of a scope are a sub-multiset of the registered callables: each guard contributes at most one run. |
| `Scopes.ScopeExitAllFire` | include/deferral.hh:220-222 | Every guard of a scope fires iff every guard's policy says so at the exit. |
| `Scopes.ExitScope` | include/deferral.hh:424-427 | Destroying a scope's guards, last constructed first, appends `ScopeExit` of their states to the log. Each guard is destroyed once and keeps its state. |
| `Selection.GuardTypePolicy` | include/deferral.hh:256-294 | `DeferExit`, `DeferFail` and `DeferSuccess` derive from the OnExit, OnFail and OnSuccess policies; none of the public guard types uses NoCheck. |
| `Selection.MacroTag` | include/deferral.hh:446-599 | A macro expands to the NoCheck tag iff it is the anonymous `DEFER`; the named `DEFER_(x)` uses the OnExit tag and the fail and success forms their own tags. |
| `Selection.MakeDefer` | include/deferral.hh:256-349 | `make_defer_exit`, `make_defer_fail` and `make_defer_success` return a fresh guard with the OnExit, OnFail or OnSuccess policy respectively. |
| `Selection.Plus` | include/deferral.hh:351-382 | `tag + f` returns a fresh guard with the policy of its tag. The NoCheck tag builds a bare `DeferBase`; the other tags go through their factory. |
| `Selection.TagPolicy` | include/deferral.hh:363-382 | The OnExit, OnFail and OnSuccess tags give the same policy as the guard type their factory returns. |
| `Selection.Defer` | include/deferral.hh:446-599 | A macro declares a fresh guard with the policy of the tag it expands to. |
| `Selection.MacroPolicy` | include/deferral.hh:446-599 | Only the anonymous `DEFER` selects NoCheck. `DEFER_(x)` selects OnExit, the fail forms OnFail and the success forms OnSuccess. |
| `Selection.NamedGuardsCanBeReleased` | include/deferral.hh:389-413 | Every macro that names its guard selects a policy whose `release()` disarms the guard for every count. |
| `Scenarios.TestExit` | tests/deferral_test.cc:13-20 | `defer` has not fired inside the scope, and has fired after a normal exit. |
| `Scenarios.TestExitThrow` | tests/deferral_test.cc:22-30 | `defer` fires when an exception leaves the scope. |
| `Scenarios.TestExitRelease` | tests/deferral_test.cc:32-48 | A released `defer_(d)` does not fire. An unreleased one does. |
| `Scenarios.TestSuccessFail` | tests/deferral_test.cc:50-61 | On a normal exit, only the `defer_success` action runs. |
| `Scenarios.TestSuccessFailThrow` | tests/deferral_test.cc:63-75 | When an exception leaves the scope, only the `defer_fail` action runs. |
| `Scenarios.TestSuccessFailRelease` | tests/deferral_test.cc:77-102 | Released success and fail guards do not fire. An unreleased pair then behaves as on any normal exit. |
| `Scenarios.TestSuccessFailReleaseThrow` | tests/deferral_test.cc:103-128 | Released success and fail guards do not fire. An unreleased pair left by an exception runs only the fail action. |
| `Scenarios.TestGuardTypes` | tests/deferral_test.cc:132-150 | With `DeferExit`, `DeferFail` and `DeferSuccess` and a normal exit, `x == 1`, `y == 0` and `z == 1`. |
| `Scenarios.TestGuardTypesWithThrow` | tests/deferral_test.cc:152-172 | With the same three guards left by an exception, `x == 1`, `y == 1` and `z == 0`. |
| `Scenarios.TestReverseOrder` | include/deferral.hh:424-427 | Three guards of mixed policies, registered with X, Y, Z, run Z, Y, X, on a normal exit and on an exception. |
| `Scenarios.TestMove` | include/deferral.hh:205-208 | A guard moved into another runs its action once, under the same condition as without the move. The exception is NoCheck, where both the moved-from and the new guard run it. |

## Left out

- The preprocessor machinery is not modelled: feature detection, attribute
  macros, `DEFERRAL_ANONYMOUS_VARIABLE` and the macro spellings
  (include/deferral.hh:32-120, 387-611). It has no runtime behaviour. What the
  macros still decide, which policy a guard gets and whether it has a name, is
  modelled in `Selection`.
- `noexcept` specifications, `std::move_if_noexcept`, the `is_invocable` and
  `is_nothrow_constructible` checks, the deleted `operator new` and
  `operator delete`, and the `noexcept` on the fail and success lambdas are
  not modelled. They are compile-time checks with no runtime effect.
- Copy construction and assignment are deleted in the source. The model
  simply has no such operation.
- The `__builtin_expect` hint and the `expect_execute` and `require_noexcept`
  constants are not modelled. They are optimisation metadata.
- `std::uncaught_exceptions()` is a call into the C++ runtime. It is an input
  parameter here.
- Real exception propagation is not modelled. An action that throws, in
  particular during unwinding, depends on the environment. A throw out of a
  scope is modelled only by the count the scope's destructors observe.
- The callable is opaque: an identity whose running is recorded in the log.
  Its captures and effects are not modelled. A moved-from callable is modelled
  as running the same action, which holds for the reference-capturing lambdas
  the macros create.
- Copy elision is assumed in the factories and `operator+`. Before C++17, an
  implementation may move the returned guard out of a temporary. The model
  does not represent that temporary, or its destructor, which for NoCheck
  would run the action too.
- The C++17 deduction guides (include/deferral.hh:297-308) only affect types.
  The deduction-guide tests are replayed with the factories, which build the
  same guard types.
- The warnings about coroutines, thread-local captures and scopes that never
  exit are caller hazards with no behaviour to model.
- The scenarios whose scope is left by an exception require
  `uncaught < INT_MAX`, so that one more in-flight exception is still a
  representable count.
- The gtest fixture and `main` (tests/deferral_test.cc:1-11, 176-179) are
  test plumbing and are not modelled.

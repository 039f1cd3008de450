/** The scenarios of tests/deferral_test.cc, replayed on the model. Each
    test's variables `x`, `y`, `z` start at 0 and are set to 1 by the
    actions `X`, `Y`, `Z`; a method returns their values at the test's
    checks. `uncaught` is the count of exceptions in flight when the test
    body runs; a `throw` inside a scope means the scope's guards are torn
    down with one more exception in flight. */
module Scenarios {
  import opened Policies
  import opened Guards
  import opened Scopes
  import opened Selection

  const X: Action := 0
  const Y: Action := 1
  const Z: Action := 2

  /** The value of the test variable set by action `a`. */
  function Flag(log: ActionLog, a: Action): (value: int)
    reads log
  {
    if a in log.fired then 1 else 0
  }

  /** `defer { x = 1; }` fires on a normal exit, and not before. */
  method TestExit(uncaught: UncaughtCount) returns (inScope: int, after: int)
    ensures inScope == 0 && after == 1
  {
    var log := new ActionLog();
    var d := Defer(Macro(AnyExit, false), X, uncaught);
    inScope := Flag(log, X);
    ExitScope([d], [d.State()], uncaught, log);
    after := Flag(log, X);
  }

  /** `defer { x = 1; }` fires when an exception leaves the scope. */
  method TestExitThrow(uncaught: UncaughtCount) returns (inScope: int, after: int)
    requires uncaught < INT_MAX
    ensures inScope == 0 && after == 1
  {
    var log := new ActionLog();
    var d := Defer(Macro(AnyExit, false), X, uncaught);
    inScope := Flag(log, X);
    ExitScope([d], [d.State()], uncaught + 1, log);
    after := Flag(log, X);
  }

  /** `defer_(d)`: released, it does not fire; not released, it does. */
  method TestExitRelease(uncaught: UncaughtCount) returns (afterReleased: int, afterKept: int)
    ensures afterReleased == 0 && afterKept == 1
  {
    var log := new ActionLog();
    var d := Defer(Macro(AnyExit, true), X, uncaught);
    d.Release();
    ExitScope([d], [d.State()], uncaught, log);
    afterReleased := Flag(log, X);
    var d2 := Defer(Macro(AnyExit, true), X, uncaught);
    ExitScope([d2], [d2.State()], uncaught, log);
    afterKept := Flag(log, X);
  }

  /** `defer_success` and `defer_fail` on a normal exit: only the success
      action runs. */
  method TestSuccessFail(uncaught: UncaughtCount) returns (x: int, y: int)
    ensures x == 1 && y == 0
  {
    var log := new ActionLog();
    var s := Defer(Macro(OnNoError, false), X, uncaught);
    var f := Defer(Macro(OnError, false), Y, uncaught);
    ScopeExitOfTwo(s.State(), f.State(), uncaught);
    ExitScope([s, f], [s.State(), f.State()], uncaught, log);
    x, y := Flag(log, X), Flag(log, Y);
  }

  /** `defer_success` and `defer_fail` when an exception leaves the scope:
      only the fail action runs. */
  method TestSuccessFailThrow(uncaught: UncaughtCount) returns (x: int, y: int)
    requires uncaught < INT_MAX
    ensures x == 0 && y == 1
  {
    var log := new ActionLog();
    var s := Defer(Macro(OnNoError, false), X, uncaught);
    var f := Defer(Macro(OnError, false), Y, uncaught);
    ScopeExitOfTwo(s.State(), f.State(), uncaught + 1);
    ExitScope([s, f], [s.State(), f.State()], uncaught + 1, log);
    x, y := Flag(log, X), Flag(log, Y);
  }

  /** Released success and fail guards stay silent on a normal exit; a
      second pair, not released, behaves as in `TestSuccessFail`. */
  method TestSuccessFailRelease(uncaught: UncaughtCount) returns (x1: int, y1: int, x2: int, y2: int)
    ensures x1 == 0 && y1 == 0
    ensures x2 == 1 && y2 == 0
  {
    var log := new ActionLog();
    var d := Defer(Macro(OnNoError, true), X, uncaught);
    var e := Defer(Macro(OnError, true), Y, uncaught);
    d.Release();
    e.Release();
    ScopeExitOfTwo(d.State(), e.State(), uncaught);
    ExitScope([d, e], [d.State(), e.State()], uncaught, log);
    x1, y1 := Flag(log, X), Flag(log, Y);
    var d2 := Defer(Macro(OnNoError, true), X, uncaught);
    var e2 := Defer(Macro(OnError, true), Y, uncaught);
    ScopeExitOfTwo(d2.State(), e2.State(), uncaught);
    ExitScope([d2, e2], [d2.State(), e2.State()], uncaught, log);
    x2, y2 := Flag(log, X), Flag(log, Y);
  }

  /** Released success and fail guards stay silent; a second pair, not
      released, left by an exception, runs only the fail action. */
  method TestSuccessFailReleaseThrow(uncaught: UncaughtCount) returns (x1: int, y1: int, x2: int, y2: int)
    requires uncaught < INT_MAX
    ensures x1 == 0 && y1 == 0
    ensures x2 == 0 && y2 == 1
  {
    var log := new ActionLog();
    var d := Defer(Macro(OnNoError, true), X, uncaught);
    var e := Defer(Macro(OnError, true), Y, uncaught);
    d.Release();
    e.Release();
    assert d.State() == GuardState(OnSuccessPolicy(-1), X);
    assert e.State() == GuardState(OnFailPolicy(INT_MAX), Y);
    ScopeExitOfTwo(d.State(), e.State(), uncaught);
    ExitScope([d, e], [d.State(), e.State()], uncaught, log);
    assert log.fired == [];
    x1, y1 := Flag(log, X), Flag(log, Y);
    var d2 := Defer(Macro(OnNoError, true), X, uncaught);
    var e2 := Defer(Macro(OnError, true), Y, uncaught);
    ScopeExitOfTwo(d2.State(), e2.State(), uncaught + 1);
    assert Teardown(d2.State(), uncaught + 1) == [];
    assert Teardown(e2.State(), uncaught + 1) == [Y];
    ExitScope([d2, e2], [d2.State(), e2.State()], uncaught + 1, log);
    assert log.fired == [Y];
    x2, y2 := Flag(log, X), Flag(log, Y);
  }

  /** `DeferExit`, `DeferFail`, `DeferSuccess` built directly, normal exit. */
  method TestGuardTypes(uncaught: UncaughtCount) returns (x: int, y: int, z: int)
    ensures x == 1 && y == 0 && z == 1
  {
    var log := new ActionLog();
    var d := MakeDefer(DeferExit, X, uncaught);
    var f := MakeDefer(DeferFail, Y, uncaught);
    var s := MakeDefer(DeferSuccess, Z, uncaught);
    ScopeExitOfThree(d.State(), f.State(), s.State(), uncaught);
    assert Teardown(d.State(), uncaught) == [X];
    assert Teardown(f.State(), uncaught) == [];
    assert Teardown(s.State(), uncaught) == [Z];
    ExitScope([d, f, s], [d.State(), f.State(), s.State()], uncaught, log);
    assert log.fired == [Z, X];
    x, y, z := Flag(log, X), Flag(log, Y), Flag(log, Z);
  }

  /** `DeferExit`, `DeferFail`, `DeferSuccess` built directly, left by an
      exception. */
  method TestGuardTypesWithThrow(uncaught: UncaughtCount) returns (x: int, y: int, z: int)
    requires uncaught < INT_MAX
    ensures x == 1 && y == 1 && z == 0
  {
    var log := new ActionLog();
    var d := MakeDefer(DeferExit, X, uncaught);
    var f := MakeDefer(DeferFail, Y, uncaught);
    var s := MakeDefer(DeferSuccess, Z, uncaught);
    ScopeExitOfThree(d.State(), f.State(), s.State(), uncaught + 1);
    assert Teardown(d.State(), uncaught + 1) == [X];
    assert Teardown(f.State(), uncaught + 1) == [Y];
    assert Teardown(s.State(), uncaught + 1) == [];
    ExitScope([d, f, s], [d.State(), f.State(), s.State()], uncaught + 1, log);
    assert log.fired == [Y, X];
    x, y, z := Flag(log, X), Flag(log, Y), Flag(log, Z);
  }

  /** Three guards of mixed policies run last-registered first: on a normal
      exit `DEFER_(a)`, `DEFER_SUCCESS`, `DEFER` registered with X, Y, Z run
      Z, Y, X; when an exception leaves the scope `DEFER_(a)`, `DEFER_FAIL`,
      `DEFER` do the same. */
  method TestReverseOrder(uncaught: UncaughtCount, thrown: bool) returns (fired: seq<Action>)
    requires thrown ==> uncaught < INT_MAX
    ensures fired == [Z, Y, X]
  {
    var log := new ActionLog();
    var a := Defer(Macro(AnyExit, true), X, uncaught);
    var b := Defer(Macro(if thrown then OnError else OnNoError, false), Y, uncaught);
    var c := Defer(Macro(AnyExit, false), Z, uncaught);
    var atExit := if thrown then uncaught + 1 else uncaught;
    assert Teardown(a.State(), atExit) == [X];
    assert Teardown(b.State(), atExit) == [Y];
    assert Teardown(c.State(), atExit) == [Z];
    ScopeExitOfThree(a.State(), b.State(), c.State(), atExit);
    ExitScope([a, b, c], [a.State(), b.State(), c.State()], atExit, log);
    fired := log.fired;
  }

  /** A guard moved into a second one: the destination fires as the source
      would have, and the moved-from source is silent, except with NoCheck,
      whose no-op release leaves the source armed, so the action runs twice.
      The destination, declared later, is torn down first. */
  method TestMove(kind: PolicyKind, uncaught: UncaughtCount, thrown: bool) returns (fired: seq<Action>)
    requires thrown ==> uncaught < INT_MAX
    ensures kind == OnExitNoCheck ==> fired == [X, X]
    ensures kind == OnExit ==> fired == [X]
    ensures kind == OnFail ==> fired == (if thrown then [X] else [])
    ensures kind == OnSuccess ==> fired == (if thrown then [] else [X])
  {
    var log := new ActionLog();
    var source := new DeferBase(kind, X, uncaught);
    var target := new DeferBase.Move(source);
    ScopeExitOfTwo(source.State(), target.State(), if thrown then uncaught + 1 else uncaught);
    ExitScope([source, target], [source.State(), target.State()], if thrown then uncaught + 1 else uncaught, log);
    fired := log.fired;
  }
}

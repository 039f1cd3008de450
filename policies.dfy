/** The four exit-condition policies of a scope guard.
    Each C++ policy class (OnExitNoCheckPolicy, OnExitPolicy, OnFailPolicy,
    OnSuccessPolicy) is one variant of `Policy`; its data member is the
    variant's field. `release()` is `Released`, `should_execute()` is
    `ShouldExecute`, and the value returned by `std::uncaught_exceptions()`
    at the moment of the call is the parameter `uncaught`. */
module Policies {

  const INT_MAX: int := 0x7fff_ffff
  const INT_MIN: int := -0x8000_0000

  /** A C++ `int`. */
  type CInt = x: int | INT_MIN <= x <= INT_MAX

  /** A value `std::uncaught_exceptions()` can return: a count of exceptions
      in flight, never negative, of type `int`. */
  type UncaughtCount = x: int | 0 <= x <= INT_MAX

  /** Which policy class a guard was instantiated with. */
  datatype PolicyKind = OnExitNoCheck | OnExit | OnFail | OnSuccess

  /** The state of one policy object. */
  datatype Policy =
    | OnExitNoCheckPolicy
    | OnExitPolicy(active: bool)
    | OnFailPolicy(exceptionCount: CInt)
    | OnSuccessPolicy(exceptionCount: CInt)

  function KindOf(p: Policy): (kind: PolicyKind) {
    match p
    case OnExitNoCheckPolicy => OnExitNoCheck
    case OnExitPolicy(_) => OnExit
    case OnFailPolicy(_) => OnFail
    case OnSuccessPolicy(_) => OnSuccess
  }

  /** `should_execute()`: does the guard's action run if the guard is torn
      down while `uncaught` exceptions are in flight? NoCheck, and OnExit
      until released, fire whatever the count; the answers of OnFail and
      OnSuccess are the lemmas below. */
  function ShouldExecute(p: Policy, uncaught: CInt): (fires: bool)
    ensures KindOf(p) == OnExitNoCheck ==> fires
    ensures p == OnExitPolicy(true) ==> fires
  {
    match p
    case OnExitNoCheckPolicy => true
    case OnExitPolicy(active) => active
    case OnFailPolicy(count) => count < uncaught
    case OnSuccessPolicy(count) => count >= uncaught
  }

  /** Default construction of a policy object while `uncaught` exceptions are
      in flight: OnExit starts active, OnFail and OnSuccess snapshot the count.
      A policy torn down at the count it was built at (a normal scope exit)
      fires unless it is OnFail; torn down with one more exception in flight
      (a throw out of the scope) it fires unless it is OnSuccess. */
  function Init(kind: PolicyKind, uncaught: UncaughtCount): (p: Policy)
    ensures KindOf(p) == kind
    ensures ShouldExecute(p, uncaught) <==> kind != OnFail
    ensures uncaught < INT_MAX ==> (ShouldExecute(p, uncaught + 1) <==> kind != OnSuccess)
  {
    match kind
    case OnExitNoCheck => OnExitNoCheckPolicy
    case OnExit => OnExitPolicy(true)
    case OnFail => OnFailPolicy(uncaught)
    case OnSuccess => OnSuccessPolicy(uncaught)
  }

  /** `release()`. For the three checked policies it disarms the policy for
      every count `std::uncaught_exceptions()` can return; for NoCheck it is
      a no-op, so NoCheck keeps firing. */
  function Released(p: Policy): (r: Policy)
    ensures KindOf(r) == KindOf(p)
    ensures KindOf(p) == OnExitNoCheck ==> r == p && forall u: CInt :: ShouldExecute(r, u)
    ensures KindOf(p) != OnExitNoCheck ==> forall u: UncaughtCount :: !ShouldExecute(r, u)
  {
    match p
    case OnExitNoCheckPolicy => p
    case OnExitPolicy(_) => OnExitPolicy(false)
    case OnFailPolicy(_) => OnFailPolicy(INT_MAX)
    case OnSuccessPolicy(_) => OnSuccessPolicy(-1)
  }

  /** NoCheck fires in every state, and its release changes nothing. */
  lemma NoCheckAlwaysExecutes(uncaught: CInt)
    ensures ShouldExecute(OnExitNoCheckPolicy, uncaught)
    ensures Released(OnExitNoCheckPolicy) == OnExitNoCheckPolicy
  {
  }

  /** A fresh OnExit policy fires whatever the count; once released it never
      fires again. */
  lemma OnExitLifecycle(built: UncaughtCount, uncaught: UncaughtCount)
    ensures ShouldExecute(Init(OnExit, built), uncaught)
    ensures !ShouldExecute(Released(Init(OnExit, built)), uncaught)
  {
  }

  /** Releasing twice leaves the same state as releasing once. */
  lemma ReleaseIdempotent(p: Policy)
    ensures Released(Released(p)) == Released(p)
  {
  }

  /** An unreleased OnFail policy fires exactly when more exceptions are in
      flight than when it was built. */
  lemma OnFailExecutesIff(built: UncaughtCount, uncaught: UncaughtCount)
    ensures ShouldExecute(Init(OnFail, built), uncaught) <==> built < uncaught
  {
  }

  /** An unreleased OnSuccess policy fires exactly when no more exceptions are
      in flight than when it was built. */
  lemma OnSuccessExecutesIff(built: UncaughtCount, uncaught: UncaughtCount)
    ensures ShouldExecute(Init(OnSuccess, built), uncaught) <==> uncaught <= built
  {
  }

  /** With the same snapshot and the same count, an OnFail and an OnSuccess
      policy give opposite answers. */
  lemma FailSuccessComplementary(snapshot: CInt, uncaught: CInt)
    ensures ShouldExecute(OnFailPolicy(snapshot), uncaught) != ShouldExecute(OnSuccessPolicy(snapshot), uncaught)
  {
  }

  /** A released OnFail policy holds INT_MAX, which no `int` count exceeds. */
  lemma ReleasedOnFailNeverExecutes(snapshot: CInt, uncaught: CInt)
    ensures !ShouldExecute(Released(OnFailPolicy(snapshot)), uncaught)
  {
  }

  /** A released OnSuccess policy holds -1, which is below every count
      `std::uncaught_exceptions()` returns, but not below every `int`: the
      sentinel relies on the count never being negative. */
  lemma ReleasedOnSuccessSentinel(snapshot: CInt)
    ensures forall u: UncaughtCount :: !ShouldExecute(Released(OnSuccessPolicy(snapshot)), u)
    ensures ShouldExecute(Released(OnSuccessPolicy(snapshot)), -1)
  {
  }
}

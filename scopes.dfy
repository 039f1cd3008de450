/** The end of a lexical scope holding several guards. C++ destroys the
    automatic objects of a scope in the reverse order of their construction,
    so the guard registered last is torn down first; the documentation of
    `DEFER_` relies on this when it says the deferred code runs as if it were
    the destructor of an object created at that point. */
module Scopes {
  import opened Policies
  import opened Guards

  /** What leaving a scope adds to the log, when `scope` lists its guards in
      registration order and `uncaught` exceptions are in flight at the exit:
      every guard after the first is torn down before the first one. */
  function ScopeExit(scope: seq<GuardState>, uncaught: CInt): (fired: seq<Action>)
    ensures |fired| <= |scope|
  {
    if scope == [] then [] else ScopeExit(scope[1..], uncaught) + Teardown(scope[0], uncaught)
  }

  /** Reference: the actions of the guards whose policy says to fire, in
      registration order. */
  function Firing(scope: seq<GuardState>, uncaught: CInt): (fired: seq<Action>) {
    if scope == [] then []
    else if ShouldExecute(scope[0].policy, uncaught) then [scope[0].func] + Firing(scope[1..], uncaught)
    else Firing(scope[1..], uncaught)
  }

  /** The callables of the guards, in registration order. */
  function Actions(scope: seq<GuardState>): (r: seq<Action>)
    ensures |r| == |scope| && forall k :: 0 <= k < |scope| ==> r[k] == scope[k].func
  {
    if scope == [] then [] else [scope[0].func] + Actions(scope[1..])
  }

  function Reversed<T>(s: seq<T>): (r: seq<T>)
    ensures |r| == |s|
  {
    if s == [] then [] else Reversed(s[1..]) + [s[0]]
  }

  /** Element `k` of the reversal is element `|s| - 1 - k` of the original. */
  lemma {:induction false} ReversedAt<T>(s: seq<T>, k: nat)
    requires k < |s|
    ensures Reversed(s)[k] == s[|s| - 1 - k]
  {
    if k < |s| - 1 {
      ReversedAt(s[1..], k);
    }
  }

  lemma {:induction false} ReversedAppend<T>(a: seq<T>, b: seq<T>)
    ensures Reversed(a + b) == Reversed(b) + Reversed(a)
  {
    if a == [] {
      assert a + b == b;
    } else {
      assert (a + b)[1..] == a[1..] + b;
      ReversedAppend(a[1..], b);
    }
  }

  /** Leaving a scope runs exactly the actions that should fire, last
      registered first. */
  lemma {:induction false} ScopeExitIsReversedRegistration(scope: seq<GuardState>, uncaught: CInt)
    ensures ScopeExit(scope, uncaught) == Reversed(Firing(scope, uncaught))
  {
    if scope != [] {
      ScopeExitIsReversedRegistration(scope[1..], uncaught);
      var head := Teardown(scope[0], uncaught);
      assert Firing(scope, uncaught) == head + Firing(scope[1..], uncaught);
      ReversedAppend(head, Firing(scope[1..], uncaught));
      assert Reversed(head) == head by {
        if head != [] {
          assert head[1..] == [];
        }
      }
    }
  }

  /** No action runs more often than guards holding it were registered:
      each guard contributes at most one run. */
  lemma {:induction false} ScopeExitAtMostOnce(scope: seq<GuardState>, uncaught: CInt)
    ensures multiset(ScopeExit(scope, uncaught)) <= multiset(Actions(scope))
  {
    if scope != [] {
      ScopeExitAtMostOnce(scope[1..], uncaught);
      assert Actions(scope) == [scope[0].func] + Actions(scope[1..]);
    }
  }

  /** Every guard of the scope fires exactly when every policy says so at
      the exit. */
  lemma {:induction false} ScopeExitAllFire(scope: seq<GuardState>, uncaught: CInt)
    ensures |ScopeExit(scope, uncaught)| == |scope|
        <==> forall k :: 0 <= k < |scope| ==> ShouldExecute(scope[k].policy, uncaught)
  {
    if scope != [] {
      ScopeExitAllFire(scope[1..], uncaught);
      assert forall k :: 1 <= k < |scope| ==> scope[k] == scope[1..][k - 1];
    }
  }

  /** A scope of two guards: the second is torn down first. */
  lemma ScopeExitOfTwo(a: GuardState, b: GuardState, uncaught: CInt)
    ensures ScopeExit([a, b], uncaught) == Teardown(b, uncaught) + Teardown(a, uncaught)
  {
  }

  /** A scope of three guards: torn down third, second, first. */
  lemma ScopeExitOfThree(a: GuardState, b: GuardState, c: GuardState, uncaught: CInt)
    ensures ScopeExit([a, b, c], uncaught) == Teardown(c, uncaught) + Teardown(b, uncaught) + Teardown(a, uncaught)
  {
    assert [a, b, c][1..] == [b, c];
    ScopeExitOfTwo(b, c, uncaught);
  }

  /** The end of a scope whose guards were constructed in the order of
      `scope`, `states` being their states when the scope is left: each
      destructor runs once, last guard first, and leaves its guard's state
      as it was. */
  method ExitScope(scope: seq<DeferBase>, ghost states: seq<GuardState>, uncaught: UncaughtCount, log: ActionLog)
    requires |states| == |scope|
    requires forall k :: 0 <= k < |scope| ==> scope[k].State() == states[k] && !scope[k].destroyed
    requires forall i, j :: 0 <= i < j < |scope| ==> scope[i] != scope[j]
    modifies scope, log
    ensures forall k :: 0 <= k < |scope| ==> scope[k].State() == states[k] && scope[k].destroyed
    ensures log.fired == old(log.fired) + ScopeExit(states, uncaught)
  {
    var i := |scope|;
    while i > 0
      invariant 0 <= i <= |scope|
      invariant forall k :: 0 <= k < |scope| ==> scope[k].State() == states[k]
      invariant forall k :: 0 <= k < i ==> !scope[k].destroyed
      invariant forall k :: i <= k < |scope| ==> scope[k].destroyed
      invariant log.fired == old(log.fired) + ScopeExit(states[i..], uncaught)
    {
      i := i - 1;
      scope[i].Destroy(uncaught, log);
      assert states[i..][1..] == states[i + 1..];
    }
    assert states[0..] == states;
  }
}

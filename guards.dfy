/** The guard `DeferBase<funcT, policyT>`: one nullary action and one policy
    object. The action is opaque; it is identified by an `Action` value, and
    running it appends that value to an `ActionLog`, the one piece of state
    all actions share. */
module Guards {
  import opened Policies

  /** The identity of a stored callable. */
  type Action = nat

  /** The observable side effects of all actions run so far, in order. */
  class ActionLog {
    var fired: seq<Action>

    constructor ()
      ensures fired == []
    {
      fired := [];
    }
  }

  /** The value of a guard: its policy state and its callable. */
  datatype GuardState = GuardState(policy: Policy, func: Action)

  /** What the destructor of a guard in state `g` adds to the log when
      `uncaught` exceptions are in flight: the action, exactly once, if the
      policy says so, and nothing otherwise. */
  function Teardown(g: GuardState, uncaught: CInt): (fired: seq<Action>)
    ensures |fired| <= 1
    ensures |fired| == 1 <==> ShouldExecute(g.policy, uncaught)
    ensures forall a | a in fired :: a == g.func
  {
    if ShouldExecute(g.policy, uncaught) then [g.func] else []
  }

  class DeferBase {
    /** The policy base-class subobject. */
    var policy: Policy
    /** The stored callable. */
    const func: Action
    /** Set once the destructor has run; the language runs it exactly once. */
    ghost var destroyed: bool

    function State(): (g: GuardState)
      reads this
    {
      GuardState(policy, func)
    }

    /** `DeferBase(F&& f)`: stores the callable and default-constructs the
        policy, which snapshots the current count for OnFail and OnSuccess. */
    constructor (kind: PolicyKind, f: Action, uncaught: UncaughtCount)
      ensures State() == GuardState(Init(kind, uncaught), f)
      ensures !destroyed
    {
      policy := Init(kind, uncaught);
      func := f;
      destroyed := false;
    }

    /** `DeferBase(DeferBase&& other)`: copies the policy state of `other`,
        moves its callable, then calls `other.release()` to disarm it. For
        NoCheck that release is a no-op, so `other` is left armed. */
    constructor Move(other: DeferBase)
      requires !other.destroyed
      modifies other
      ensures State() == old(other.State())
      ensures other.State() == GuardState(Released(old(other.policy)), other.func)
      ensures !destroyed && !other.destroyed
    {
      policy := other.policy;
      func := other.func;
      destroyed := false;
      new;
      other.Release();
    }

    /** `release()`, inherited from the policy. */
    method Release()
      requires !destroyed
      modifies this
      ensures policy == Released(old(policy))
      ensures !destroyed
    {
      policy := Released(policy);
    }

    /** `~DeferBase()`: runs the action iff `should_execute()` holds at this
        moment. The policy state is left as it was. */
    method Destroy(uncaught: UncaughtCount, log: ActionLog)
      requires !destroyed
      modifies this, log
      ensures destroyed && policy == old(policy)
      ensures log.fired == old(log.fired) + Teardown(old(State()), uncaught)
    {
      if ShouldExecute(policy, uncaught) {
        log.fired := log.fired + [func];
      }
      destroyed := true;
    }
  }

  /** Moving a guard in state `g` leaves the destination in state `g` and
      the source in state `GuardState(Released(g.policy), g.func)` (`Move`).
      Tearing both down runs what the source alone would have run, plus, for
      NoCheck only, the moved-from source's own run of the same action. */
  lemma MoveHandsOverFiring(g: GuardState, uncaught: UncaughtCount)
    ensures Teardown(g, uncaught) + Teardown(GuardState(Released(g.policy), g.func), uncaught)
         == Teardown(g, uncaught) + (if KindOf(g.policy) == OnExitNoCheck then [g.func] else [])
  {
  }

  /** Releasing and then tearing down a guard with a checked policy never
      runs its action, whatever happened in between. */
  lemma ReleasedGuardIsInert(g: GuardState, uncaught: UncaughtCount)
    requires KindOf(g.policy) != OnExitNoCheck
    ensures Teardown(GuardState(Released(g.policy), g.func), uncaught) == []
  {
  }
}

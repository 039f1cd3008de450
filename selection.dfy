/** Which policy a guard gets. The public guard types, the `make_defer_*`
    factories, the `operator+` overloads on tag enums, and the macros built
    on them differ only in the policy they pick. Copy elision is assumed:
    a factory's result is the guard it constructs, with no intermediate
    moved-from temporary. */
module Selection {
  import opened Policies
  import opened Guards

  /** The public guard types `DeferExit`, `DeferFail`, `DeferSuccess`. */
  datatype GuardType = DeferExit | DeferFail | DeferSuccess

  /** The tag enums that the macros put on the left of `operator+`. */
  datatype Tag = DeferOnExitNoCheck | DeferOnExit | DeferOnFail | DeferOnSuccess

  /** The exit condition a macro names: `DEFER*`, `DEFER_FAIL*`,
      `DEFER_SUCCESS*`. */
  datatype Condition = AnyExit | OnError | OnNoError

  /** A macro: its condition, and whether the caller names the guard (the
      trailing-underscore spellings `DEFER_(x)`, `DEFER_FAIL_(x)`,
      `DEFER_SUCCESS_(x)`). The lower-case keywords are the same macros. */
  datatype Macro = Macro(condition: Condition, named: bool)

  /** The policy base of each public guard type. None of them uses NoCheck,
      which only the bare `DeferBase` built by the NoCheck tag has. */
  function GuardTypePolicy(t: GuardType): (kind: PolicyKind)
    ensures kind != OnExitNoCheck
  {
    match t
    case DeferExit => OnExit
    case DeferFail => OnFail
    case DeferSuccess => OnSuccess
  }

  /** The tag each macro expands to. Only the anonymous `DEFER` uses the
      NoCheck tag; `DEFER_FAIL` and `DEFER_SUCCESS` forward to their named
      forms with a generated name. */
  function MacroTag(m: Macro): (tag: Tag)
    ensures tag == DeferOnExitNoCheck <==> m == Macro(AnyExit, false)
  {
    match m.condition
    case AnyExit => if m.named then DeferOnExit else DeferOnExitNoCheck
    case OnError => DeferOnFail
    case OnNoError => DeferOnSuccess
  }

  /** `make_defer_exit`, `make_defer_fail`, `make_defer_success`: a guard of
      the matching type around `f`. */
  method MakeDefer(t: GuardType, f: Action, uncaught: UncaughtCount) returns (g: DeferBase)
    ensures fresh(g) && !g.destroyed
    ensures g.State() == GuardState(Init(GuardTypePolicy(t), uncaught), f)
  {
    g := new DeferBase(GuardTypePolicy(t), f, uncaught);
  }

  /** `tag + f`: the NoCheck tag builds a bare `DeferBase` with the NoCheck
      policy; the other tags go through the matching factory. */
  method Plus(tag: Tag, f: Action, uncaught: UncaughtCount) returns (g: DeferBase)
    ensures fresh(g) && !g.destroyed
    ensures g.State() == GuardState(Init(TagPolicy(tag), uncaught), f)
  {
    match tag
    case DeferOnExitNoCheck =>
      g := new DeferBase(OnExitNoCheck, f, uncaught);
    case DeferOnExit =>
      g := MakeDefer(DeferExit, f, uncaught);
    case DeferOnFail =>
      g := MakeDefer(DeferFail, f, uncaught);
    case DeferOnSuccess =>
      g := MakeDefer(DeferSuccess, f, uncaught);
  }

  /** The policy `operator+` gives a guard for each tag. */
  function TagPolicy(tag: Tag): (kind: PolicyKind)
    ensures tag == DeferOnExit ==> kind == GuardTypePolicy(DeferExit)
    ensures tag == DeferOnFail ==> kind == GuardTypePolicy(DeferFail)
    ensures tag == DeferOnSuccess ==> kind == GuardTypePolicy(DeferSuccess)
  {
    match tag
    case DeferOnExitNoCheck => OnExitNoCheck
    case DeferOnExit => OnExit
    case DeferOnFail => OnFail
    case DeferOnSuccess => OnSuccess
  }

  /** The guard a macro declares at the point of use. */
  method Defer(m: Macro, f: Action, uncaught: UncaughtCount) returns (g: DeferBase)
    ensures fresh(g) && !g.destroyed
    ensures g.State() == GuardState(Init(TagPolicy(MacroTag(m)), uncaught), f)
  {
    g := Plus(MacroTag(m), f, uncaught);
  }

  /** The policy each macro selects: NoCheck for the anonymous `DEFER` and
      nothing else, OnExit for `DEFER_(x)`, OnFail for the fail forms and
      OnSuccess for the success forms. */
  lemma MacroPolicy(m: Macro)
    ensures TagPolicy(MacroTag(m)) == OnExitNoCheck <==> m == Macro(AnyExit, false)
    ensures m == Macro(AnyExit, true) ==> TagPolicy(MacroTag(m)) == OnExit
    ensures m.condition == OnError ==> TagPolicy(MacroTag(m)) == OnFail
    ensures m.condition == OnNoError ==> TagPolicy(MacroTag(m)) == OnSuccess
  {
  }

  /** Every macro that gives the caller a named guard, and so a handle on
      which to call `release()`, selects a policy whose release disarms the
      guard. The NoCheck policy, whose release does nothing, is only handed
      out anonymously. */
  lemma NamedGuardsCanBeReleased(m: Macro, built: UncaughtCount, uncaught: UncaughtCount)
    requires m.named
    ensures !ShouldExecute(Released(Init(TagPolicy(MacroTag(m)), built)), uncaught)
  {
  }
}

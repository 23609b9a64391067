/** What a hook slot of the provider does once `setupHooks`
    (src/auth-module.ts) has wrapped it: each registration captures the
    slot's previous hook and installs a function that awaits that previous
    hook, then runs its own handler when the operation path matches.
    Asynchrony is modelled as sequential calls. */
module HookChain {
  import opened Wrappers

  /** An operation path of the provider, such as "/sign-up/email". */
  type Path = string

  /** A method of a hook-container provider, bound to the instance it was found on. */
  datatype Handler = Handler(instance: nat, methodName: string)

  /** One function body the chain executes. */
  datatype Call = ForeignCall(id: nat) | HandlerCall(handler: Handler)

  /** The function stored in a slot: a hook the provider's options already
      held when the module started, or a wrapper installed by `setupHooks`
      around the slot's previous content. */
  datatype Hook =
    | Foreign(id: nat)
    | Composed(previous: Option<Hook>, hookPath: Path, handler: Handler)

  /** One `(path, handler)` pair registered on a slot. */
  datatype Registration = Registration(hookPath: Path, handler: Handler)

  /** The calls made when the provider invokes `hook` for an operation on `path`. */
  function Run(hook: Hook, path: Path): seq<Call>
    decreases hook
  {
    match hook
    case Foreign(id) => [ForeignCall(id)]
    case Composed(previous, hookPath, handler) =>
      (if previous.Some? then Run(previous.value, path) else [])
      + (if hookPath == path then [HandlerCall(handler)] else [])
  }

  /** The calls made by a slot, which may be empty. */
  function RunSlot(slot: Option<Hook>, path: Path): seq<Call> {
    if slot.Some? then Run(slot.value, path) else []
  }

  /** The slot after `regs` have been registered on it, one after the other. */
  function Compose(slot: Option<Hook>, regs: seq<Registration>): (r: Option<Hook>)
    ensures regs != [] ==> r.Some?
  {
    if regs == [] then slot
    else
      var last := regs[|regs| - 1];
      Some(Composed(Compose(slot, regs[..|regs| - 1]), last.hookPath, last.handler))
  }

  /** The handler calls of the registrations on `path`, in registration order. */
  function Matching(regs: seq<Registration>, path: Path): seq<Call> {
    if regs == [] then []
    else
      var last := regs[|regs| - 1];
      Matching(regs[..|regs| - 1], path) + (if last.hookPath == path then [HandlerCall(last.handler)] else [])
  }

  /** Registering in two rounds is registering all at once. */
  lemma {:induction false} ComposeAppend(slot: Option<Hook>, a: seq<Registration>, b: seq<Registration>)
    ensures Compose(slot, a + b) == Compose(Compose(slot, a), b)
  {
    if b == [] {
      assert a + b == a;
    } else {
      assert (a + b)[..|a + b| - 1] == a + b[..|b| - 1];
      ComposeAppend(slot, a, b[..|b| - 1]);
    }
  }

  /** Matching keeps exactly the registrations on `path`, in order, each once:
      its calls are those of the registrations whose path is `path`. */
  lemma {:induction false} MatchingSound(regs: seq<Registration>, path: Path, c: Call)
    ensures c in Matching(regs, path) <==> exists r :: r in regs && r.hookPath == path && c == HandlerCall(r.handler)
  {
    if regs != [] {
      var init, last := regs[..|regs| - 1], regs[|regs| - 1];
      assert regs == init + [last];
      MatchingSound(init, path, c);
      forall r | r in regs
        ensures r in init || r == last
      {
      }
    }
  }

  /** The trace of a composed slot: the hook that was there before, then
      exactly the registered handlers whose path is the operation's path,
      in registration order. A path no registration names still runs the
      previous hook. */
  lemma {:induction false} ComposedTrace(slot: Option<Hook>, regs: seq<Registration>, path: Path)
    ensures RunSlot(Compose(slot, regs), path) == RunSlot(slot, path) + Matching(regs, path)
  {
    if regs != [] {
      ComposedTrace(slot, regs[..|regs| - 1], path);
    }
  }

  /** Wrapping never loses a hook: whatever ran before the registrations
      still runs, first, for every path. */
  lemma {:induction false} PreviousHooksRunFirst(slot: Option<Hook>, regs: seq<Registration>, path: Path)
    ensures RunSlot(slot, path) <= RunSlot(Compose(slot, regs), path)
  {
    ComposedTrace(slot, regs, path);
  }

  /** Two handlers A then B on "/x" over an unrelated hook C: "/x" runs
      C, A, B in that order, "/y" runs only C. */
  lemma ChainScenario(c: nat, a: Handler, b: Handler)
    ensures RunSlot(Compose(Some(Foreign(c)), [Registration("/x", a), Registration("/x", b)]), "/x")
            == [ForeignCall(c), HandlerCall(a), HandlerCall(b)]
    ensures RunSlot(Compose(Some(Foreign(c)), [Registration("/x", a), Registration("/x", b)]), "/y")
            == [ForeignCall(c)]
  {
    var regs := [Registration("/x", a), Registration("/x", b)];
    assert regs[..1] == [Registration("/x", a)];
    assert regs[..1][..0] == [];
    assert "/x" != "/y";
    assert Matching(regs[..1], "/x") == [HandlerCall(a)];
    assert Matching(regs, "/x") == [HandlerCall(a), HandlerCall(b)];
    assert Matching(regs[..1], "/y") == [];
    assert Matching(regs, "/y") == [];
    ComposedTrace(Some(Foreign(c)), regs, "/x");
    ComposedTrace(Some(Foreign(c)), regs, "/y");
  }

  /** The result of invoking a chain when some calls throw: the calls made
      and the error that escaped, if any. */
  datatype Outcome = Outcome(trace: seq<Call>, failure: Option<Call>)

  /** Making call `c` after `done` completed normally. */
  function Attempt(done: seq<Call>, c: Call, failing: set<Call>): Outcome {
    Outcome(done + [c], if c in failing then Some(c) else None)
  }

  /** Invoking `hook` when the calls in `failing` throw: a rejected
      `await` ends the composed function at once, so nothing after it runs
      and the error is passed on as it is. */
  function Execute(hook: Hook, path: Path, failing: set<Call>): Outcome
    decreases hook
  {
    match hook
    case Foreign(id) => Attempt([], ForeignCall(id), failing)
    case Composed(previous, hookPath, handler) =>
      var before := if previous.Some? then Execute(previous.value, path, failing) else Outcome([], None);
      if before.failure.Some? then before
      else if hookPath == path then Attempt(before.trace, HandlerCall(handler), failing)
      else before
  }

  /** Reference: running the calls of `t` in order and stopping at the first that throws. */
  function FirstFailure(t: seq<Call>, failing: set<Call>): (o: Outcome)
    ensures o.trace <= t
    ensures o.failure.None? ==> o.trace == t && forall i :: 0 <= i < |t| ==> t[i] !in failing
    ensures o.failure.Some? ==>
      && |o.trace| > 0
      && o.trace[|o.trace| - 1] == o.failure.value
      && o.failure.value in failing
      && forall i :: 0 <= i < |o.trace| - 1 ==> o.trace[i] !in failing
  {
    if t == [] then Outcome([], None)
    else if t[0] in failing then Outcome([t[0]], Some(t[0]))
    else
      var rest := FirstFailure(t[1..], failing);
      assert forall i :: 1 <= i < |t| ==> t[i] == t[1..][i - 1];
      Outcome([t[0]] + rest.trace, rest.failure)
  }

  /** Appending one call to a run that has not failed yet. */
  lemma {:induction false} FirstFailureSnoc(t: seq<Call>, c: Call, failing: set<Call>)
    ensures FirstFailure(t + [c], failing)
            == if FirstFailure(t, failing).failure.Some? then FirstFailure(t, failing) else Attempt(t, c, failing)
  {
    if t != [] {
      assert (t + [c])[1..] == t[1..] + [c];
      FirstFailureSnoc(t[1..], c, failing);
    }
  }

  /** Invoking a chain runs its trace up to and including the first call
      that throws, and that call's error is what escapes. */
  lemma {:induction false} ExecuteStopsAtFirstFailure(hook: Hook, path: Path, failing: set<Call>)
    ensures Execute(hook, path, failing) == FirstFailure(Run(hook, path), failing)
    decreases hook
  {
    match hook
    case Foreign(id) =>
    case Composed(previous, hookPath, handler) =>
      var prior := if previous.Some? then Run(previous.value, path) else [];
      if previous.Some? {
        ExecuteStopsAtFirstFailure(previous.value, path, failing);
      }
      if hookPath == path {
        FirstFailureSnoc(prior, HandlerCall(handler), failing);
      } else {
        assert Run(hook, path) == prior;
      }
  }

  /** When nothing throws, the whole trace runs and nothing escapes. */
  lemma NoFailureRunsEverything(hook: Hook, path: Path)
    ensures Execute(hook, path, {}) == Outcome(Run(hook, path), None)
  {
  }
}

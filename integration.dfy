/** The start-up work of `AuthModule` (src/auth-module.ts): `onModuleInit`
    scans the hook-container providers and wraps the provider's `before` and
    `after` hook slots with their handlers (`setupHooks`); `configure`
    decides the CORS settings, the body-parsing switch and the path the
    provider's handler is mounted on. The framework calls (`enableCors`,
    `consumer.apply`, `.use`) are replaced by the plan they would carry out. */
module Integration {
  import opened Wrappers
  import opened HookChain

  /** The two hook slots, `before` and `after`. */
  datatype Timing = Before | After

  /** The `HOOKS` table, in the order `setupHooks` visits it. */
  const HookTimings: seq<Timing> := [Before, After]

  /** The provider's `options.hooks` object: one optional function per slot. */
  datatype HookTable = HookTable(before: Option<Hook>, after: Option<Hook>) {

    function Slot(t: Timing): Option<Hook> {
      if t == Before then before else after
    }

    /** `hooks[t] = h`: the other slot keeps its content. */
    function WithSlot(t: Timing, h: Option<Hook>): (r: HookTable)
      ensures r.Slot(t) == h
      ensures forall u :: u != t ==> r.Slot(u) == Slot(u)
    {
      if t == Before then this.(before := h) else this.(after := h)
    }
  }

  /** `{ ...undefined }`: an object with neither slot. */
  const EmptyHooks: HookTable := HookTable(None, None)

  /** A method of a provider and the path each hook marker attached to it, if any. */
  datatype MethodInfo = MethodInfo(name: string, beforePath: Option<string>, afterPath: Option<string>) {
    function PathFor(t: Timing): Option<string> {
      if t == Before then beforePath else afterPath
    }
  }

  /** A provider as the discovery service lists it: its instance, whether its
      class carries the hook-container marker, and its methods in scan order. */
  datatype Provider = Provider(instance: nat, isHookContainer: bool, methods: seq<MethodInfo>)

  /** A marker path is acted on only when it is truthy: present and not "". */
  predicate Installs(hookPath: Option<string>) {
    hookPath.Some? && hookPath.value != ""
  }

  /** What `setupHooks` registers on slot `t` for one method: nothing when
      the method has no path for `t`. */
  function MethodRegistrations(m: MethodInfo, instance: nat, t: Timing): (regs: seq<Registration>)
    ensures regs != [] <==> Installs(m.PathFor(t))
    ensures regs != [] ==> regs == [Registration(m.PathFor(t).value, Handler(instance, m.name))]
  {
    if Installs(m.PathFor(t)) then [Registration(m.PathFor(t).value, Handler(instance, m.name))] else []
  }

  /** The registrations on slot `t` of one provider's methods, in scan order. */
  function ProviderRegistrations(methods: seq<MethodInfo>, instance: nat, t: Timing): seq<Registration> {
    if methods == [] then []
    else ProviderRegistrations(methods[..|methods| - 1], instance, t) + MethodRegistrations(methods[|methods| - 1], instance, t)
  }

  /** The registrations on slot `t` of a list of providers, in scan order. */
  function ScanRegistrations(containers: seq<Provider>, t: Timing): seq<Registration> {
    if containers == [] then []
    else
      var last := containers[|containers| - 1];
      ScanRegistrations(containers[..|containers| - 1], t) + ProviderRegistrations(last.methods, last.instance, t)
  }

  /** The providers whose class carries the hook-container marker, in order. */
  function HookContainers(providers: seq<Provider>): (r: seq<Provider>)
    ensures forall p :: p in r <==> p in providers && p.isHookContainer
  {
    if providers == [] then []
    else (if providers[0].isHookContainer then [providers[0]] else []) + HookContainers(providers[1..])
  }

  /** The filter keeps the discovery order: filtering a concatenation is
      concatenating the filtered parts. With `HookContainersSingle` this fixes
      the result as the order-preserving subsequence of hook containers,
      each kept once. */
  lemma {:induction false} HookContainersAppend(a: seq<Provider>, b: seq<Provider>)
    ensures HookContainers(a + b) == HookContainers(a) + HookContainers(b)
  {
    if a == [] {
      assert a + b == b;
    } else {
      var head := if a[0].isHookContainer then [a[0]] else [];
      assert (a + b)[0] == a[0] && (a + b)[1..] == a[1..] + b;
      HookContainersAppend(a[1..], b);
      calc {
        HookContainers(a + b);
        head + HookContainers(a[1..] + b);
        head + (HookContainers(a[1..]) + HookContainers(b));
        (head + HookContainers(a[1..])) + HookContainers(b);
      }
    }
  }

  /** A single provider is kept exactly when it is a hook container. */
  lemma HookContainersSingle(p: Provider)
    ensures HookContainers([p]) == if p.isHookContainer then [p] else []
  {
    assert [p][1..] == [];
  }

  /** A provider registers exactly what its methods' markers name. */
  lemma {:induction false} ProviderRegistrationsExact(methods: seq<MethodInfo>, instance: nat, t: Timing, r: Registration)
    ensures r in ProviderRegistrations(methods, instance, t)
            <==> exists m :: m in methods && MethodRegistrations(m, instance, t) == [r]
  {
    if methods != [] {
      var init, last := methods[..|methods| - 1], methods[|methods| - 1];
      assert methods == init + [last];
      ProviderRegistrationsExact(init, instance, t, r);
      forall m | m in methods
        ensures m in init || m == last
      {
      }
    }
  }

  /** The scan registers exactly what the methods of the listed providers name. */
  lemma {:induction false} ScanRegistrationsExact(containers: seq<Provider>, t: Timing, r: Registration)
    ensures r in ScanRegistrations(containers, t)
            <==> exists p :: p in containers && r in ProviderRegistrations(p.methods, p.instance, t)
  {
    if containers != [] {
      var init, last := containers[..|containers| - 1], containers[|containers| - 1];
      assert containers == init + [last];
      ScanRegistrationsExact(init, t, r);
      forall p | p in containers
        ensures p in init || p == last
      {
      }
    }
  }

  /** Only hook containers take part, and every method of one does: a
      registration comes from the path of a method of a hook container. */
  lemma OnlyHookContainersRegister(providers: seq<Provider>, t: Timing, r: Registration)
    ensures r in ScanRegistrations(HookContainers(providers), t)
            <==> exists p :: p in providers && p.isHookContainer && r in ProviderRegistrations(p.methods, p.instance, t)
  {
    ScanRegistrationsExact(HookContainers(providers), t, r);
  }

  /** A provider whose methods carry no path for `t` registers nothing on
      `t`, so an `@AfterHook()` without a path is never installed. */
  lemma {:induction false} PathlessMethodsRegisterNothing(methods: seq<MethodInfo>, instance: nat, t: Timing)
    requires forall m :: m in methods ==> !Installs(m.PathFor(t))
    ensures ProviderRegistrations(methods, instance, t) == []
  {
    if methods != [] {
      assert methods[|methods| - 1] in methods;
      PathlessMethodsRegisterNothing(methods[..|methods| - 1], instance, t);
    }
  }

  /** One more method scanned: wrapping the slot with its registrations
      extends the composition by exactly those registrations. */
  lemma {:induction false} ScanMethodStep(slot: Option<Hook>, scanned: seq<Registration>, methods: seq<MethodInfo>,
                                          j: nat, instance: nat, t: Timing)
    requires j < |methods|
    ensures Compose(Compose(slot, scanned + ProviderRegistrations(methods[..j], instance, t)), MethodRegistrations(methods[j], instance, t))
            == Compose(slot, scanned + ProviderRegistrations(methods[..j + 1], instance, t))
  {
    assert methods[..j + 1][..j] == methods[..j];
    var prefix := scanned + ProviderRegistrations(methods[..j], instance, t);
    var added := MethodRegistrations(methods[j], instance, t);
    assert scanned + ProviderRegistrations(methods[..j + 1], instance, t) == prefix + added;
    ComposeAppend(slot, prefix, added);
  }

  /** One more provider scanned. */
  lemma ScanProviderStep(containers: seq<Provider>, i: nat, t: Timing)
    requires i < |containers|
    ensures ScanRegistrations(containers[..i], t) + ProviderRegistrations(containers[i].methods, containers[i].instance, t)
            == ScanRegistrations(containers[..i + 1], t)
  {
    assert containers[..i + 1][..i] == containers[..i];
  }

  /** The hooks, CORS origins and base path of the provider's options. */
  datatype TrustedOrigins = NoOrigins | OriginList(origins: seq<string>) | OriginFunction

  class ProviderOptions {
    var hooks: Option<HookTable>
    const basePath: Option<string>
    const trustedOrigins: TrustedOrigins

    constructor(hooks: Option<HookTable>, basePath: Option<string>, trustedOrigins: TrustedOrigins)
      ensures this.hooks == hooks && this.basePath == basePath && this.trustedOrigins == trustedOrigins
    {
      this.hooks := hooks;
      this.basePath := basePath;
      this.trustedOrigins := trustedOrigins;
    }
  }

  const DefaultBasePath: string := "/api/auth"
  const CorsMethods: seq<string> := ["GET", "POST", "PUT", "DELETE"]
  const FunctionOriginsError: string :=
    "Function-based trustedOrigins not supported in NestJS. Use string array or disable CORS with disableTrustedOriginsCors: true."

  /** The argument `enableCors` would receive. */
  datatype CorsOptions = CorsOptions(origin: seq<string>, methods: seq<string>, credentials: bool)

  /** What `configure` does to the HTTP server: CORS (if enabled), whether the
      body-parsing middleware is applied to every route, and the route
      pattern the provider's handler is mounted on. */
  datatype ServerPlan = ServerPlan(cors: Option<CorsOptions>, skipBodyParsing: bool, mountPattern: string)

  /** The configured path with a leading "/" added when it lacks one. */
  function WithLeadingSlash(p: string): (r: string)
    ensures |r| > 0 && r[0] == '/'
    ensures |p| > 0 && p[0] == '/' ==> r == p
    ensures !(|p| > 0 && p[0] == '/') ==> r == "/" + p
  {
    if |p| > 0 && p[0] == '/' then p else "/" + p
  }

  /** The base path: the default when none is configured, a leading "/"
      ensured, and one trailing "/" removed. */
  function NormalizeBasePath(configured: Option<string>): (r: string)
    ensures configured.None? ==> r == DefaultBasePath
    ensures r == "" || r[0] == '/'
    ensures var p := WithLeadingSlash(configured.GetOr(DefaultBasePath)); r == p || r + "/" == p
    ensures var p := WithLeadingSlash(configured.GetOr(DefaultBasePath)); r + "/" == p <==> p[|p| - 1] == '/'
    ensures (configured.Some? && |configured.value| > 0 && configured.value[0] == '/'
             && configured.value[|configured.value| - 1] != '/') ==> r == configured.value
  {
    var p := WithLeadingSlash(configured.GetOr(DefaultBasePath));
    if p[|p| - 1] == '/' then p[..|p| - 1] else p
  }

  /** Only one trailing "/" is removed, and "/" itself becomes "". */
  lemma TrailingSlashRemovedOnce()
    ensures NormalizeBasePath(Some("api/auth/")) == "/api/auth"
    ensures NormalizeBasePath(Some("/api/auth//")) == "/api/auth/"
    ensures NormalizeBasePath(Some("/")) == ""
    ensures NormalizeBasePath(Some("")) == ""
  {
  }

  /** The CORS decision: an array of trusted origins enables CORS with exactly
      those origins unless CORS is disabled; a function-based value is
      refused unless CORS is disabled; otherwise nothing changes. */
  function CorsDecision(origins: TrustedOrigins, disableCors: bool): (r: Result<Option<CorsOptions>, string>)
    ensures r.Failure? <==> origins.OriginFunction? && !disableCors
    ensures r.Failure? ==> r.error == FunctionOriginsError
    ensures r.Success? && r.value.Some? <==> origins.OriginList? && !disableCors
    ensures r.Success? && r.value.Some? ==> r.value.value == CorsOptions(origins.origins, CorsMethods, true)
  {
    var isNotFunctionBased := origins.OriginList?;
    if !disableCors && isNotFunctionBased then Success(Some(CorsOptions(origins.origins, CorsMethods, true)))
    else if !origins.NoOrigins? && !disableCors && !isNotFunctionBased then Failure(FunctionOriginsError)
    else Success(None)
  }

  class AuthModule {
    /** The provider instance whose options the module reads and extends. */
    const auth: ProviderOptions
    const disableTrustedOriginsCors: bool
    const disableBodyParser: bool

    constructor(auth: ProviderOptions, disableTrustedOriginsCors: bool, disableBodyParser: bool)
      ensures this.auth == auth
      ensures this.disableTrustedOriginsCors == disableTrustedOriginsCors
      ensures this.disableBodyParser == disableBodyParser
    {
      this.auth := auth;
      this.disableTrustedOriginsCors := disableTrustedOriginsCors;
      this.disableBodyParser := disableBodyParser;
    }

    /** Wraps each slot for which `providerMethod` carries a path; a slot
        without a path, and everything when the hooks object is missing, is
        left as it was. */
    method SetupHooks(providerMethod: MethodInfo, instance: nat)
      modifies auth`hooks
      ensures old(auth.hooks).None? ==> auth.hooks == old(auth.hooks)
      ensures old(auth.hooks).Some? ==> (auth.hooks.Some? &&
        forall t :: auth.hooks.value.Slot(t) == Compose(old(auth.hooks).value.Slot(t), MethodRegistrations(providerMethod, instance, t)))
    {
      if auth.hooks.None? {
        return;
      }
      ghost var initial := auth.hooks.value;
      for k := 0 to |HookTimings|
        invariant auth.hooks.Some?
        invariant forall t :: (auth.hooks.value.Slot(t)
          == if t in HookTimings[..k] then Compose(initial.Slot(t), MethodRegistrations(providerMethod, instance, t)) else initial.Slot(t))
      {
        var hookType := HookTimings[k];
        var hookPath := providerMethod.PathFor(hookType);
        if !Installs(hookPath) {
          continue;
        }
        var originalHook := auth.hooks.value.Slot(hookType);
        auth.hooks := Some(auth.hooks.value.WithSlot(hookType, Some(Composed(originalHook, hookPath.value, Handler(instance, providerMethod.name)))));
      }
      assert HookTimings[..|HookTimings|] == [Before, After];
    }

    /** Keeps the hooks already in the provider's options (through a shallow
        copy) and registers, provider by provider and method by method, the
        hook methods of every hook container. */
    method OnModuleInit(providers: seq<Provider>)
      modifies auth`hooks
      ensures auth.hooks.Some?
      ensures forall t :: (auth.hooks.value.Slot(t)
        == Compose(old(auth.hooks).GetOr(EmptyHooks).Slot(t), ScanRegistrations(HookContainers(providers), t)))
    {
      auth.hooks := Some(auth.hooks.GetOr(EmptyHooks));
      ghost var initial := auth.hooks.value;
      var containers := HookContainers(providers);
      for i := 0 to |containers|
        invariant auth.hooks.Some?
        invariant forall t :: auth.hooks.value.Slot(t) == Compose(initial.Slot(t), ScanRegistrations(containers[..i], t))
      {
        var provider := containers[i];
        var methods := provider.methods;
        ghost var scanned := containers[..i];
        forall t
          ensures ScanRegistrations(scanned, t) + ProviderRegistrations(methods[..0], provider.instance, t) == ScanRegistrations(scanned, t)
        {
          assert methods[..0] == [];
        }
        for j := 0 to |methods|
          invariant auth.hooks.Some?
          invariant forall t :: (auth.hooks.value.Slot(t)
            == Compose(initial.Slot(t), ScanRegistrations(scanned, t) + ProviderRegistrations(methods[..j], provider.instance, t)))
        {
          SetupHooks(methods[j], provider.instance);
          forall t {
            ScanMethodStep(initial.Slot(t), ScanRegistrations(scanned, t), methods, j, provider.instance, t);
          }
        }
        assert methods[..|methods|] == methods;
        forall t {
          ScanProviderStep(containers, i, t);
        }
      }
      assert containers[..|containers|] == containers;
    }

    /** Decides CORS, body parsing and the mount path, or throws for a
        function-based trusted-origins value before doing any of it. */
    method Configure() returns (r: Result<ServerPlan, string>)
      ensures CorsDecision(auth.trustedOrigins, disableTrustedOriginsCors).Failure? ==> r == Failure(FunctionOriginsError)
      ensures CorsDecision(auth.trustedOrigins, disableTrustedOriginsCors).Success? ==>
        r == Success(ServerPlan(CorsDecision(auth.trustedOrigins, disableTrustedOriginsCors).value,
                                !disableBodyParser, NormalizeBasePath(auth.basePath) + "/*path"))
      ensures r.Success? ==> r.value.mountPattern[0] == '/'
    {
      var decision := CorsDecision(auth.trustedOrigins, disableTrustedOriginsCors);
      if decision.Failure? {
        return Failure(decision.error);
      }
      var cors := decision.value;
      var skipBodyParsing := !disableBodyParser;
      var basePath := ResolveBasePath(auth.basePath);
      r := Success(ServerPlan(cors, skipBodyParsing, basePath + "/*path"));
    }
  }

  /** The `let basePath` steps of `configure`: default, leading "/", one
      trailing "/" removed; the mount pattern built on it starts with "/". */
  method ResolveBasePath(configured: Option<string>) returns (basePath: string)
    ensures basePath == NormalizeBasePath(configured)
    ensures (basePath + "/*path")[0] == '/'
  {
    basePath := configured.GetOr(DefaultBasePath);
    if !(|basePath| > 0 && basePath[0] == '/') {
      basePath := "/" + basePath;
    }
    if basePath[|basePath| - 1] == '/' {
      basePath := basePath[..|basePath| - 1];
    }
    assert basePath == "" || basePath[0] == '/';
  }

  /** After start-up, invoking a slot runs the hook the options held before,
      then each scanned handler whose path is the operation's path, in scan
      order. */
  lemma InitializedSlotTrace(initial: Option<HookTable>, providers: seq<Provider>, t: Timing, path: Path)
    ensures RunSlot(Compose(initial.GetOr(EmptyHooks).Slot(t), ScanRegistrations(HookContainers(providers), t)), path)
            == RunSlot(initial.GetOr(EmptyHooks).Slot(t), path) + Matching(ScanRegistrations(HookContainers(providers), t), path)
  {
    ComposedTrace(initial.GetOr(EmptyHooks).Slot(t), ScanRegistrations(HookContainers(providers), t), path);
  }

  /** The sign-up scenario: with an empty hooks object, one container with a
      before hook and one with an after hook on "/sign-up/email", each slot
      runs its own handler once on sign-up and nothing on another path. */
  lemma SignUpScenario(x: nat, y: nat)
    ensures var providers := [
              Provider(x, true, [MethodInfo("handle", Some("/sign-up/email"), None)]),
              Provider(y, true, [MethodInfo("handle", None, Some("/sign-up/email"))])];
            && RunSlot(Compose(None, ScanRegistrations(HookContainers(providers), Before)), "/sign-up/email")
               == [HandlerCall(Handler(x, "handle"))]
            && RunSlot(Compose(None, ScanRegistrations(HookContainers(providers), After)), "/sign-up/email")
               == [HandlerCall(Handler(y, "handle"))]
            && RunSlot(Compose(None, ScanRegistrations(HookContainers(providers), Before)), "/sign-in/email") == []
  {
    var p1 := Provider(x, true, [MethodInfo("handle", Some("/sign-up/email"), None)]);
    var p2 := Provider(y, true, [MethodInfo("handle", None, Some("/sign-up/email"))]);
    var providers := [p1, p2];
    assert HookContainers(providers[1..][1..]) == [];
    assert HookContainers(providers) == providers;
    assert providers[..1] == [p1] && [p1][..0] == [];
    assert p1.methods[..0] == [] && p2.methods[..0] == [];
    assert ProviderRegistrations(p1.methods, x, Before) == [Registration("/sign-up/email", Handler(x, "handle"))];
    assert ProviderRegistrations(p2.methods, y, Before) == [];
    assert ProviderRegistrations(p1.methods, x, After) == [];
    assert ProviderRegistrations(p2.methods, y, After) == [Registration("/sign-up/email", Handler(y, "handle"))];
    assert providers[..1] == [p1];
    assert ScanRegistrations([p1], Before) == [] + ProviderRegistrations(p1.methods, x, Before);
    assert ScanRegistrations([p1], After) == [] + ProviderRegistrations(p1.methods, x, After);
    assert ScanRegistrations(providers, Before) == [Registration("/sign-up/email", Handler(x, "handle"))];
    assert ScanRegistrations(providers, After) == [Registration("/sign-up/email", Handler(y, "handle"))];
    assert "/sign-up/email" != "/sign-in/email";
  }
}

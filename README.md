# nestjs-better-auth: access guard and hook composition, modelled in Dafny

This project models the two decision procedures of the NestJS adapter for the
better-auth authentication provider, and the small configuration step beside them.

- **The access guard** (`AuthGuard.canActivate`, module `Access`, file `access.dfy`).
  The provider resolves a session from the request headers. The guard stores the
  session and its user on the request, whatever the outcome. It then applies a
  fixed rule chain:
  - a public route is allowed;
  - an optional route without a session is allowed;
  - no session means 401 `UNAUTHORIZED` / `"Unauthorized"`;
  - a route without required roles is allowed;
  - otherwise the user's role must match a required role, or the result is
    403 `FORBIDDEN` / `"Insufficient permissions"`.

  `Decide` is the chain as a pure function. `Permitted` is an order-free
  reference, and `Decide` is proved to allow exactly when `Permitted` holds.
  `HasRole` mirrors the `.some`/`.includes` search. It is proved equal to a
  set-based statement: some role the user holds is required.
- **Hook composition** (module `HookChain`, file `hook_chain.dfy`). Each
  registration wraps a hook slot (`before` or `after`). The wrapper awaits the
  slot's previous hook, then runs its own handler when the operation path
  matches exactly. `Run` gives the calls one invocation makes. `Compose` folds
  a list of registrations onto a slot. `ComposedTrace` proves the trace of a
  composed slot: the previous hook, then exactly the handlers registered on
  that path, in registration order. `Execute` adds thrown errors, and
  `ExecuteStopsAtFirstFailure` proves that a chain stops at the first call
  that throws and passes that error on unchanged.
- **Module start-up** (`AuthModule`, module `Integration`, file `integration.dfy`).
  - `OnModuleInit` keeps the hooks already present: each slot of the new hooks
    object starts as the old slot's content. It scans only the providers whose class is marked as a hook container, and
    offers every method of such a provider to `SetupHooks`.
  - `SetupHooks` installs a wrapper in each slot for which the method carries a
    path. A method without a path leaves the slot as it was.
  - The postconditions of both methods state each slot's new content as
    `Compose` applied to the old slot and the scanned registrations.
  - `Configure` returns a plan instead of calling the HTTP adapter: CORS
    options, the body-parsing switch and the mount pattern built from the
    normalised base path. With a function-based trusted-origins value and
    CORS enabled, it returns the error instead.

Asynchrony is modelled as sequential calls. The provider's `getSession` is a
function value given to the guard. A rejection from it is passed on as
`ProviderError`, and the request is then left untouched.

Every function here depends only on its arguments. So the decision for the same
(session, route metadata) is always the same. `CanActivate` ties its result to
`getSession` applied to the request's headers, which are constant.

Where the tests and the code disagree, the model follows the code:
- The 403 message is `"Insufficient permissions"`, as src/auth-guard.ts:99
  throws it. The guard's test looks for the lower-case substring
  `"insufficient permissions"` (src/auth-guard.spec.ts:112).
- A hook method whose marker has no path, or an empty one, is never installed
  (src/auth-module.ts:150). It does not match every path.

## Model

| member | source | states |
|---|---|---|
| Access.Includes | src/auth-guard.ts:93 | `includes` on a role array is true exactly when the role is an element |
| Access.AnyIncluded | src/auth-guard.ts:91 | `some(includes)` is true exactly when some held role is an element of the required roles |
| Access.HasRole | src/auth-guard.ts:87-94 | the local `hasRole` is true exactly when some role the user holds is required; a string holds itself, an array its elements, any other shape nothing |
| Access.Decide | src/auth-guard.ts:62-104 | allows exactly when the route is public, or optional without a session, or a session exists and the roles are unrestricted or met; a denial without a session is 401 `UNAUTHORIZED` `"Unauthorized"`, with a session 403 `FORBIDDEN` `"Insufficient permissions"` |
| Access.PublicAlwaysAllows | src/auth-guard.ts:62-67 | a public route is allowed with or without a session, whatever the role |
| Access.OptionalDoesNotWaiveRoles | src/auth-guard.ts:69-74 | once a session exists, the optional flag does not change the decision |
| Access.NoSessionOutcome | src/auth-guard.ts:62-80 | without a session: allowed when public or optional, otherwise the 401 denial |
| Access.NoRolesRequiredAllows | src/auth-guard.ts:82-87 | with a session and absent or empty required roles, any role value is allowed |
| Access.GuardScenarios | src/auth-guard.spec.ts:84-134 | the test cases: string role "user" against ["admin"] is 403, "admin" and ["editor", "admin"] are allowed, no roles required is allowed, no session is 401 |
| Access.LookupHeaders | src/auth-guard.ts:54-56 | the lookup uses `request.headers` if present, else the handshake headers, else an empty collection |
| Access.AuthGuard.CanActivate | src/auth-guard.ts:51-105 | stores the resolved session and its user (or none) on the request whatever the decision; returns `Decide` of that session; a rejected lookup is passed on and leaves the request unchanged |
| HookChain.MatchingSound | src/auth-module.ts:158-160 | a handler call is made for an invocation exactly when a registration with that handler names the invocation's path |
| HookChain.ComposeAppend | src/auth-module.ts:152-153 | wrapping a slot with two lists of registrations one after the other equals wrapping it with their concatenation |
| HookChain.ComposedTrace | src/auth-module.ts:152-161 | a composed slot runs the previous hook first, then exactly the handlers registered on the invocation's path, in registration order, each once; a path nobody registered still runs the previous hook |
| HookChain.PreviousHooksRunFirst | src/auth-module.ts:154-156 | the calls of the slot before wrapping are a prefix of the calls after, for every path |
| HookChain.ChainScenario | src/auth-module.ts:152-161 | A then B on "/x" over an unrelated hook C: "/x" runs C, A, B; "/y" runs only C |
| HookChain.FirstFailure | src/auth-module.ts:153-161 | reference for a chain that throws: the calls made are a prefix of the trace ending at the first throwing call, and that call's error escapes; with no throwing call the whole trace runs |
| HookChain.ExecuteStopsAtFirstFailure | src/auth-module.ts:153-161 | invoking a composed slot with throwing calls runs exactly the trace up to the first throwing call and passes its error on unchanged |
| HookChain.NoFailureRunsEverything | src/auth-module.ts:153-161 | when nothing throws, invocation runs the whole trace and no error escapes |
| Integration.HookTable.WithSlot | src/auth-module.ts:153 | replacing one slot never changes the other |
| Integration.MethodRegistrations | src/auth-module.ts:148-160 | a method registers one handler, bound to its provider instance, on a slot exactly when its marker path for that slot is present and non-empty |
| Integration.HookContainers | src/auth-module.ts:77-81 | the scanned providers are exactly those whose class carries the hook-container marker |
| Integration.HookContainersAppend | src/auth-module.ts:77-81 | the filter keeps the discovery order: filtering a concatenation is concatenating the filtered parts |
| Integration.HookContainersSingle | src/auth-module.ts:77-81 | a single provider is kept exactly when its class carries the hook-container marker |
| Integration.ProviderRegistrationsExact | src/auth-module.ts:84-90 | a provider registers exactly the registrations of its methods |
| Integration.ScanRegistrationsExact | src/auth-module.ts:83-91 | the scan registers exactly the registrations of the listed providers |
| Integration.OnlyHookContainersRegister | src/auth-module.ts:77-91 | a registration is made exactly when it comes from a method of a hook-container provider |
| Integration.PathlessMethodsRegisterNothing | src/auth-module.ts:149-150 | methods without a path for a slot register nothing there, so a path-less `@AfterHook()` is never installed |
| Integration.ScanMethodStep | src/auth-module.ts:87-90 | scanning one more method extends the slot's composition by that method's registrations |
| Integration.ScanProviderStep | src/auth-module.ts:83-91 | scanning one more provider appends its registrations to the scan |
| Integration.AuthModule.SetupHooks | src/auth-module.ts:142-163 | each slot becomes the old slot wrapped with the method's registration for it, if any; nothing changes when the hooks object is missing |
| Integration.AuthModule.OnModuleInit | src/auth-module.ts:71-92 | the hooks object exists afterwards and each slot is the copied old slot wrapped with the scanned registrations, in scan order |
| Integration.InitializedSlotTrace | src/auth-module.ts:71-92 | after start-up a slot runs the hook it held before, then the scanned handlers on the invocation's path, in scan order |
| Integration.SignUpScenario | tests/e2e/hooks.e2e.test.ts:31-118 | one before and one after handler on "/sign-up/email" each run once on sign-up, and the before slot runs nothing on another path |
| Integration.WithLeadingSlash | src/auth-module.ts:122-124 | the result starts with "/"; an input already starting with "/" is returned unchanged, any other input gets "/" in front |
| Integration.NormalizeBasePath | src/auth-module.ts:119-129 | an absent base path gives "/api/auth"; the result is "" or starts with "/"; exactly one trailing "/" is removed when the slash-prefixed path ends with "/", and nothing otherwise; a path starting with "/" and not ending with it is unchanged |
| Integration.ResolveBasePath | src/auth-module.ts:119-129 | the step-by-step `let basePath` updates give exactly `NormalizeBasePath` of the configured value, and the mount pattern built on it starts with "/" |
| Integration.TrailingSlashRemovedOnce | src/auth-module.ts:126-129 | "api/auth/" gives "/api/auth", "/api/auth//" keeps one trailing "/", and "/" and "" both give "" |
| Integration.CorsDecision | src/auth-module.ts:95-113 | an origin array with CORS not disabled enables CORS with exactly those origins, GET/POST/PUT/DELETE and credentials; a function-based value with CORS not disabled is the error; otherwise CORS is untouched |
| Integration.AuthModule.Configure | src/auth-module.ts:94-140 | returns the error exactly when the CORS decision fails; otherwise the CORS decision, body parsing skipped exactly when not disabled, and the mount pattern `<normalised base path>/*path`, which starts with "/" |

## Left out

- `this.auth`: src/auth-module.ts reads `this.auth` (lines 73-75, 119, 131, 146 and 152-153), but the class never declares or assigns it. Its constructor (lines 58-69) stores only `options`, and line 95 reads `this.options.auth`. As written, `onModuleInit` would throw a `TypeError` at line 73 and `configure` at line 119. The model reads `this.auth` as the provider instance `options.auth` (`AuthModule.auth`); the `TypeError` is not modelled.
- The shallow copy `{ ...hooks }` (src/auth-module.ts:73-75): hook tables are values here, so the copy's effect that the original hooks object is never mutated, and any aliasing of it, is not modelled.

- Session lookup: `getSession` and `fromNodeHeaders` belong to the external provider. `getSession` is a function value given to the guard; header normalisation is not modelled.
- Route metadata: the reflector lookup and the decorators in src/decorators.ts are framework wrappers. The resolved `PUBLIC`, `OPTIONAL` and `ROLES` values and the marker paths are inputs. The handler-over-class override is not modelled.
- `getRequestFromContext` in src/utils.ts picks the HTTP or GraphQL request object. The model starts from the request object.
- Role arrays holding non-strings are not modelled; role arrays are arrays of strings.
- src/auth-service.ts and src/auth-module-definition.ts hold getters and the module builder, with no logic. `forRoot`/`forRootAsync` are not modelled.
- src/api-error-exception-filter.ts turns a provider error into an HTTP response; serialisation and console output are not modelled.
- src/api-error-hook-throw.ts tests the foreign `APIError` type at run time. Only the fact that its path-less `@AfterHook()` is never installed is modelled, by `PathlessMethodsRegisterNothing`.
- `createAuthMiddleware`, `toNodeHandler`, `enableCors`, `consumer.apply`, `.use(...)` and the logger are framework and I/O calls. `Configure` returns the plan they would carry out.
- Hook context and return values: hooks run for the order of calls only. Changes a hook makes to the shared context are not modelled. The composed wrapper returns nothing, so a wrapped hook's return value is discarded; this is not modelled either.
- The order in which the discovery service lists providers and the metadata scanner lists methods is taken as given.
- Suspension, cancellation and interleaving of asynchronous calls are not modelled; awaits are sequential calls.

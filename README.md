# Service locator model

A Dafny model of `locator.go`, a small service locator, which is a kind of dependency-injection container. The locator keeps a table from service name to a registration record. A record has one of three lifecycles:

- **transient**: built again on every `Get`;
- **singleton**: built lazily on the first `Get`, then cached in the record;
- **scoped**: built once per request by the request middleware, stored in the request context, and read back with `GetScoped`.

Files:

- `locator.dfy`, module `Locator`. It holds the data model and the class `DefaultLocator`. The class has the fields `services` (the table) and `invocations`, and the methods `New`, `Transient`, `Scoped`, `Singleton`, `Get`, `GetScoped` and `Middleware`. Besides the class, the module has:
  - `GetStep`, the pure specification of `Get`;
  - `Scope`, the context the middleware loop produces when it walks the scoped names in a given order;
  - the lemmas about `Scope` that the middleware relies on.
- `properties.dfy`, module `LocatorProperties`. It holds lemmas that relate several operations:
  - singleton memoisation over any series of `Get`s;
  - transient rebuilding on every `Get`;
  - re-registration;
  - independence of the middleware's result from the order in which the table is walked;
  - isolation between requests.

How the model makes the source concrete:

- **Builders.** In the source, builders are opaque closures. Here they are total functions. A transient or singleton builder takes the number of builder invocations the locator has made so far. A scoped builder takes the request and that same number. The locator's `invocations` field lists, in order, the names whose builder has run. So "the builder ran once", "it ran again" and "it did not run" can be stated in contracts.
- **Records.** Each record is a tagged variant: `TransientService`, `SingletonService` with an instance slot, or `ScopedService`. This replaces the two flags and the type-erased `builder` of the source. Go's `nil` is the `Value` constructor `Nil`.
- **Fatal errors.** Each `log.Fatalf` becomes a `Fatal(Error)` result, and the state is left unchanged, because the source stops before it writes anything.
- **Request context.** The context is a `map<string, Value>`.

When the context holds nothing under a scoped name, `GetScoped` returns nil with no error (`locator.go:59` returns `ctx.Value(name)`), so the model returns `Ok(Nil)`.

## Model

| member | source | states |
|---|---|---|
| Locator.DefaultLocator.New | locator.go:62-64 | A new locator has an empty service table and has run no builder. |
| Locator.DefaultLocator.Transient | locator.go:80-86 | The entry for `name` becomes a fresh transient record with the given builder, replacing any earlier record. Every other name is untouched and no builder runs. |
| Locator.DefaultLocator.Scoped | locator.go:88-94 | The entry for `name` becomes a fresh scoped record with the given request builder, replacing any earlier record. Every other name is untouched. |
| Locator.DefaultLocator.Singleton | locator.go:96-103 | The entry for `name` becomes a singleton record with an empty instance slot, replacing any earlier record and discarding its cached instance. Every other name is untouched. |
| Locator.DefaultLocator.Get | locator.go:31-49 | The result and the new table and invocation log are exactly those of `GetStep`. A fatal outcome changes nothing. |
| Locator.GetStep | locator.go:31-49 | Get never changes a registration's kind or builder, and never changes the record of any other name. It runs at most one builder, the one under `name`. A fatal outcome leaves the state as it was. |
| Locator.DefaultLocator.GetScoped | locator.go:51-60 | An unknown name is fatal (not found). A name that is not scoped is fatal (not scoped). Otherwise the result is the context's value under `name`, or nil when the context has none, with no error. |
| Locator.DefaultLocator.Middleware | locator.go:66-78 | The table is unchanged. The walk order `order` lists every scoped name exactly once. Each of those builders runs once, in walk order, and the invocation log grows by exactly `order`. The new context has the old keys plus exactly the scoped names, and it equals `Scope` of the walk (see `ScopeOfEnumeration` for its entries). |
| Locator.ScopeKeys | locator.go:71-74 | Walking a list of scoped names adds exactly those names to the context's keys. |
| Locator.ScopeElsewhere | locator.go:71-74 | A name the walk does not visit keeps its earlier context entry, or stays absent. |
| Locator.ScopeAt | locator.go:71-74 | In a walk without repeats, the i-th visited name holds its builder's result for the request, built as invocation n + i. |
| Locator.WalkStart | locator.go:69-71 | Before the loop, every name remains, nothing is visited and the context is the request's own. This establishes the walk invariant. |
| Locator.WalkScoped | locator.go:71-73 | Visiting a scoped name keeps the walk invariant. The name joins the walk order, and the context gains the builder's value for the request under that name. |
| Locator.WalkSkip | locator.go:71-72 | Visiting a name that is not scoped keeps the walk invariant with the context and the walk order unchanged. |
| Locator.WalkDone | locator.go:71-75 | When no name remains, the walk order lists every scoped name exactly once and the context is `Scope` of that order. |
| Locator.ScopeOfEnumeration | locator.go:69-75 | A walk that visits every scoped name once yields the old keys plus the scoped names. It keeps every entry under a non-scoped key, and each scoped name holds its builder's result for the request. |
| LocatorProperties.GetUnknownFails | locator.go:32-35 | Get of an unregistered name is fatal with "not found" and changes nothing. |
| LocatorProperties.GetScopedServiceFails | locator.go:44-46 | Get of a scoped name is fatal ("use GetScoped") and changes nothing. |
| LocatorProperties.TransientBuiltOnEachGet | locator.go:48 | Two Gets of a transient run its builder twice and return its two results. The table is left unchanged. |
| LocatorProperties.TransientBuildCount | locator.go:31-49 | Over any series of Gets, a transient's builder runs exactly as often as its name is requested, and its record never changes. |
| LocatorProperties.SingletonCachedIsReturned | locator.go:37-42 | A singleton with a non-nil instance is returned as it is, no builder runs, and the state is unchanged. |
| LocatorProperties.SingletonBuiltOnFirstGet | locator.go:37-42 | With an empty slot, Get runs the builder once, stores the result and returns it. If that result is non-nil, the next Get returns it without building. If it is nil, the next Get runs the builder again. |
| LocatorProperties.SingletonBuiltAtMostOnce | locator.go:37-42 | Over any series of Gets of any names, a singleton whose builder never returns nil is built at most once, and at most zero times when it is already cached. Its registration is kept, and a cached instance is never replaced. |
| LocatorProperties.RegistrationLeavesOtherNames | locator.go:81-103 | Registering one name does not change what Get returns for any other name. |
| LocatorProperties.ReRegisteredSingletonIsRebuilt | locator.go:98-103 | After a name is registered again as a singleton, the next Get runs the new builder, whatever instance was cached before. |
| LocatorProperties.ScopeKeysIndependentOfOrder | locator.go:71-75 | Any two walk orders of the table give contexts with the same key set. |
| LocatorProperties.ScopeIndependentOfOrder | locator.go:71-75 | When every scoped builder depends on the request only, any two walk orders give the same context. |
| LocatorProperties.ScopedIsolation | locator.go:66-78 | The contexts built for two requests hold, under a scoped name, values built from their own request. So a builder that tells the requests apart gives the two contexts different values. |

## Left out

- HTTP plumbing is not modelled: `http.Handler`, `http.HandlerFunc`, the response writer, `r.WithContext` and `next.ServeHTTP` (`locator.go:67-68`, `locator.go:76`). `Middleware` models the loop that builds the context, takes the request's existing context as input, and returns the new one.
- Process termination by `log.Fatalf` is modelled as a `Fatal` result that leaves the state unchanged.
- Go's `interface{}` builder storage and the `.(ServiceBuilder)` and `.(ScopedServiceBuilder)` type assertions are replaced by the tagged `Service` variant. In the source, a registration function always stores the matching builder, so the assertions cannot fail.
- Locator.DefaultLocator.Get: builders do not receive the locator, so a builder that resolves other services recursively, and its side effects on the table, are not modelled. A builder is a function of the invocation count only.
- Locator.DefaultLocator.Middleware: scoped builders likewise do not receive the locator. The loop keeps its builder invocations in a local log and writes the log to the `invocations` field once the walk ends. Builders cannot reach the locator in this model, so nothing can observe the difference.
- Builders are total functions: a nil builder, which `Transient`, `Scoped` and `Singleton` accept (`locator.go:80-103`) and whose call at `locator.go:39`, `:48` or `:73` panics, and a builder that panics, are not modelled.
- A `DefaultLocator` built without `New` (the type is exported, `locator.go:17-19`) has a nil table, and registering a name in it panics (`locator.go:82`, `:90`, `:99`). The class has only the `New` constructor, so this path is not modelled.
- Concurrency is not modelled. The source has no locking and no single-flight guard for singletons, and the model is sequential.
- The internals of `context.Context` are not modelled. Stacking `context.WithValue` layers is a map update in which a later value under a key shadows an earlier one.
- Go's map iteration order is unspecified. `Middleware` reports the order it actually took as a ghost result, and the contract holds for every such order.
- In the source, a service record is a pointer held only by the table. The model keeps the record as a value in the map, so the in-place write to `srv.instance` (`locator.go:39`) is a map update. No aliasing of records is modelled. None is observable unless a builder re-registers its own name through the locator, which the model leaves out (see the `Locator.DefaultLocator.Get` line): `Get` keeps the record pointer across the builder call (`locator.go:32-39`), so the write would land in the detached record.

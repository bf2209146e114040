# AspNetCore.MultiTenant — a verified model of the tenant runtime

AspNetCore.MultiTenant runs several tenants inside one ASP.NET Core host.
Each tenant has its own dependency-injection container, its own hosted
services and its own request pipeline. This project models the runtime core
in Dafny and proves properties of the model:

- **The tenant registry** (`TenantService`, module `TenantRegistry`, file
  `tenant_service.dfy`):
  - it creates a tenant on first lookup: the initializers run, the framework
    defaults are added with `TryAdd`, the container is built, the tenant is
    registered and the three start phases run;
  - it touches `LastAccessed` on later lookups;
  - it stops a tenant: unregister, the three stop phases, then dispose.
- **The lifecycle calls** (module `Lifecycle`, file `lifecycle.dfy`): the order
  of the hook calls, and how the first throwing call cuts a run short.
- **The idle-tenant reaper** (`TenantManagerHostedService`, module
  `IdleReaper`, file `idle_reaper.dfy`): a one-minute tick loop that stops
  every tenant left unaccessed for at least `StopInterval`.
- **The resolution bridge** (`TenantContextServiceProvider`, module
  `ResolutionBridge`, file `bridge.dfy`): tenant container first, then host
  container. A type only the host has is announced once per process.
- **The tenant application builder** (`TenantApplication`, module `Builder`,
  file `tenant_application.dfy`):
  - components are composed in reverse;
  - `Build` wraps them in routing, authentication, authorization and endpoint
    stages;
  - marker entries in a copy-on-write property bag (module `Collections`, file
    `property_bag.dfy`) keep each stage from being added twice.
- **The `UseMultiTenant` middleware** (module `MultiTenantMiddleware`, file
  `middleware.dfy`):
  - it finds the request's tenant code;
  - it compiles the tenant's pipeline once per tenant and call site;
  - it runs that pipeline with the request services switched to a bridge,
    then restores them.
- **The host-builder extensions** (module `HostExtensions`, file
  `host_builder_extensions.dfy`): the host-name resolver, and the logger
  provider that prefixes categories with the tenant code.
- **The two hosting environments** (module `Hosting`, file
  `host_environments.dfy`): override, else parent, else default; lazily built
  file providers that are dropped when their path changes.
- **The options and the tenant record** (`options.dfy`, `tenant_context.dfy`).

How effects are represented:

- **Exceptions.** A `faults: set<Event>` parameter lists the calls that
  throw. Such a call is still recorded in the `trace` of calls, and then ends
  the run.
- **The clock.** `DateTimeOffset.UtcNow` is an integer tick count passed in.
- **Request delegates.** A delegate is the chain of stages it runs before its
  terminal delegate (`RequestPipeline`).
- **The container.** It is the ordered list of its registrations, resolved
  "last registration wins" (`ServiceModel`).

Four behaviours of the code are worth stating outright, because they are not
what the names of its methods suggest:

- **A throwing start hook leaves the tenant registered.** `InitializeAsync`
  registers the tenant (`TenantService.cs:119`) before the start phases run
  (`TenantService.cs:126-145`). After a throw the tenant stays registered, in
  state `Starting`, with its container built. `TenantService.Create` states
  this.
- **A throwing stop hook leaves the tenant half stopped.** `StopAsync` has no
  try/catch (`TenantService.cs:35-74`). The tenant is already unregistered,
  stays `Stopping`, and its container is not disposed. `TenantService.Stop`
  states this.
- **A throwing stop ends the reaper's pass.** One try/catch wraps the whole
  pass (`TenantManagerHostedService.cs:34-61`), so the first exception skips
  the remaining tenants until the next tick. `StopEach` states this.
- **The reaper examines every registered tenant**, whatever its state
  (`TenantManagerHostedService.cs:47-49`), not only the running ones.

## Model

| member | source | states |
|---|---|---|
| ServiceModel.TypeRef.GenericDefinition | src/AspNetCore.MultiTenant/Hosting/TenantContextServiceProvider.cs:30 | a constructed type's definition has its name and its number of type arguments; a definition is its own definition |
| ServiceModel.Resolve | src/AspNetCore.MultiTenant/Hosting/TenantContextServiceProvider.cs:20 | a registration for exactly the type is found iff there is one, and it is the last such registration |
| ServiceModel.GetService | src/AspNetCore.MultiTenant/Hosting/TenantContextServiceProvider.cs:20 | the container produces a type iff it is one of its own services (`IServiceProvider`, `IServiceScopeFactory`, `IServiceProviderIsService`, `IServiceProviderIsKeyedService`), or it is registered, or its open generic definition is, or it is an `IEnumerable<T>`; its own services win over any registration; then an exact registration, the last one winning; otherwise the last registration of its open generic definition serves it; an unregistered enumerable yields every registration serving `T` |
| ServiceModel.Matching | src/AspNetCore.MultiTenant/Hosting/TenantContextServiceProvider.cs:20 | the instances of `IEnumerable<T>` are exactly those of the registrations for `T` or for its open generic definition |
| ServiceModel.ResolveAll | src/AspNetCore.MultiTenant/Services/TenantService.cs:126 | `GetServices<IHostedService>()` holds an implementation iff it is registered for the type |
| ServiceModel.ResolveAllAppend | src/AspNetCore.MultiTenant/Services/TenantService.cs:126 | one instance per registration for the type, in registration order, duplicates kept: a further registration adds its instance at the end exactly when it is for the type |
| ServiceModel.LifecycleServices | src/AspNetCore.MultiTenant/Services/TenantService.cs:127 | `OfType<IHostedLifecycleService>()` holds a service iff it is a hosted service that is a lifecycle service |
| ServiceModel.LifecycleServicesAppend | src/AspNetCore.MultiTenant/Services/TenantService.cs:127 | `OfType` keeps the order and the duplicates of its input: a further service is added at the end exactly when it is a lifecycle service |
| ServiceModel.TryAddResolution | src/AspNetCore.MultiTenant/Services/TenantService.cs:103-114 | one `TryAdd` leaves a registered type resolving as before; a new type resolves to the added implementation |
| ServiceModel.TryAddAllResolution | src/AspNetCore.MultiTenant/Services/TenantService.cs:103-114 | a run of `TryAdd`s never overrides an earlier registration; an unregistered type resolves to the first default for it |
| Lifecycle.UntilFaultShape | src/AspNetCore.MultiTenant/Services/TenantService.cs:98-101 | a run of calls is a prefix of the planned calls: all of them iff none throws, otherwise it ends at the first throwing call |
| Lifecycle.UntilFaultThree | src/AspNetCore.MultiTenant/Services/TenantService.cs:130-143 | three phase loops in a row run without a throw iff each does; a throw in one phase means no later phase runs |
| Lifecycle.StartupPhasesInOrder | src/AspNetCore.MultiTenant/Services/TenantService.cs:126-143 | every `StartingAsync` call comes before every `StartAsync`, which comes before every `StartedAsync` |
| Lifecycle.ShutdownMirrorsStartup | src/AspNetCore.MultiTenant/Services/TenantService.cs:44-61 | stop makes the same calls as start, phase for phase and service for service, in the same (not reversed) order |
| RequestPipeline.ApplyLayers | src/AspNetCore.MultiTenant/Builder/TenantApplication.cs:142 | invoking a component puts its stages in front of the delegate it wraps, and keeps that delegate's terminal |
| RequestPipeline.ComposeLayers | src/AspNetCore.MultiTenant/Builder/TenantApplication.cs:136-146 | composing components runs their stages in registration order, the first outermost, then everything `next` runs |
| RequestPipeline.TenantRequestDelegates.constructor | src/AspNetCore.MultiTenant/Hosting/TenantRequestDelegates.cs:8 | a tenant's delegate cache starts empty |
| Options.TenantOptions.constructor | src/AspNetCore.MultiTenant.Abstractions/Options/TenantOptions.cs:9-19 | `StopInterval` is `TimeSpan.MaxValue`, fallback is off, and `RedirectScopeTypes` is empty |
| Options.TenantOptions.SetStopInterval | src/AspNetCore.MultiTenant.Abstractions/Options/TenantOptions.cs:9 | the interval is the one set |
| Options.TenantOptions.SetAllowFallbackToHostServiceProvider | src/AspNetCore.MultiTenant.Abstractions/Options/TenantOptions.cs:14 | the flag is the one set |
| Options.TenantOptions.AddRedirectScopeType | src/AspNetCore.MultiTenant.Abstractions/Options/TenantOptions.cs:19 | the set gains the type; adding a type twice keeps one entry and reports no addition |
| TenantInstance.TenantContext.constructor | src/AspNetCore.MultiTenant/TenantInstance.cs:3-11 | the code is the given one and fixed; the state is `Starting`, `LastAccessed` is the creation time, and there is no container yet |
| TenantRegistry.InitializerRegistrationWins | src/AspNetCore.MultiTenant/Services/TenantService.cs:98-114 | a type an initializer registers resolves as the initializer left it, whatever default the framework adds afterwards |
| TenantRegistry.HostEnvironmentDefault | src/AspNetCore.MultiTenant/Services/TenantService.cs:108-114 | unless an initializer registers `IHostEnvironment`, it resolves to `TenantHostEnvironment`; the later web-environment `TryAdd` under that type is a no-op |
| TenantRegistry.OpenGenericDefaults | src/AspNetCore.MultiTenant/Services/TenantService.cs:98-114 | in a tenant's container, `IOptions<T>` and `ILogger<T>` that no initializer registers are served by the initializers' last `IOptions<>`/`ILogger<>` registration, else by the `OptionsManager`/`Logger` that `AddOptions()`/`AddLogging()` add |
| TenantRegistry.WebHostEnvironmentDefault | src/AspNetCore.MultiTenant/Services/TenantService.cs:112-113 | `IWebHostEnvironment` resolves to the initializer's registration if there is one, else to `TenantWebHostEnvironment` |
| TenantRegistry.TenantService.constructor | src/AspNetCore.MultiTenant/Services/TenantService.cs:13-19 | the registry starts with no tenants and no calls made |
| TenantRegistry.TenantService.ActiveTenants | src/AspNetCore.MultiTenant/Services/TenantService.cs:22 | the snapshot holds exactly the registered tenants, each once |
| TenantRegistry.TenantService.RunPhase | src/AspNetCore.MultiTenant/Services/TenantService.cs:130-133 | one hook per service in order; the first throwing hook ends the phase and is reported |
| TenantRegistry.TenantService.RunPhases | src/AspNetCore.MultiTenant/Services/TenantService.cs:126-143 | the first phase for the lifecycle services, the second for all hosted services, the third for the lifecycle services, each complete before the next, up to the first throw |
| TenantRegistry.TenantService.RunInitializers | src/AspNetCore.MultiTenant/Services/TenantService.cs:93-101 | `TenantRequestDelegates` is registered first; each initializer then runs once, in order, for the code, up to the first throw; the registrations are theirs in order |
| TenantRegistry.TenantService.BuildTenant | src/AspNetCore.MultiTenant/Services/TenantService.cs:91-117 | a new `Starting` tenant for the code, whose container is built from the registrations plus the `TryAdd`ed defaults and has an empty delegate cache |
| TenantRegistry.TenantService.Register | src/AspNetCore.MultiTenant/Services/TenantService.cs:91-119 | an initializer's throw registers and builds nothing; otherwise exactly one new entry is added under the code, with a newly built container |
| TenantRegistry.TenantService.Start | src/AspNetCore.MultiTenant/Services/TenantService.cs:126-145 | the three start phases run in order; the tenant becomes `Running` only if no hook throws, and otherwise keeps its state |
| TenantRegistry.TenantService.Create | src/AspNetCore.MultiTenant/Services/TenantService.cs:91-147 | the creation path: an initializer's throw changes no entry; otherwise the tenant is registered before the start phases, and a start hook's throw leaves it registered and `Starting` |
| TenantRegistry.TenantService.Initialize | src/AspNetCore.MultiTenant/Services/TenantService.cs:76-124 | the re-check behind the gate: a tenant registered meanwhile is returned as it is, and nothing is built; otherwise the creation path runs |
| TenantRegistry.TenantService.GetOrStartTenant | src/AspNetCore.MultiTenant/Services/TenantService.cs:24-33 | a registered code returns that same tenant with `LastAccessed` set to now and the map unchanged; otherwise a new, distinct tenant is created |
| TenantRegistry.TenantService.Stop | src/AspNetCore.MultiTenant/Services/TenantService.cs:35-74 | an unknown code changes nothing; otherwise unregister, `Stopping`, the three stop phases, `Stopped`, async dispose; a throwing hook leaves it `Stopping` and undisposed |
| IdleReaper.UnexaminedStillRegistered | src/AspNetCore.MultiTenant/Services/TenantManagerHostedService.cs:47-55 | a tenant of the snapshot not yet examined is still registered under its own code when its turn comes |
| IdleReaper.NotIdleKept | src/AspNetCore.MultiTenant/Services/TenantManagerHostedService.cs:47-55 | however far a pass got, a registered tenant that is not idle is still registered |
| IdleReaper.NoIdleLeft | src/AspNetCore.MultiTenant/Services/TenantManagerHostedService.cs:47-56 | after a full pass over a snapshot of every tenant, no tenant still registered is idle |
| IdleReaper.TenantManagerHostedService.constructor | src/AspNetCore.MultiTenant/Services/TenantManagerHostedService.cs:8-12 | the reaper works on the given registry and options |
| IdleReaper.TenantManagerHostedService.StopIfIdle | src/AspNetCore.MultiTenant/Services/TenantManagerHostedService.cs:49-55 | a tenant is stopped, under its own code, iff `now - LastAccessed >= interval`; a non-idle one is left untouched |
| IdleReaper.TenantManagerHostedService.Examine | src/AspNetCore.MultiTenant/Services/TenantManagerHostedService.cs:47-55 | examining the next tenant of the snapshot extends the pass's unregistrations, calls and states by that tenant's alone |
| IdleReaper.TenantManagerHostedService.StopEach | src/AspNetCore.MultiTenant/Services/TenantManagerHostedService.cs:47-56 | tenants are examined in snapshot order against one `now`; the idle ones are unregistered, their stops made in order; the first throw ends the pass |
| IdleReaper.TenantManagerHostedService.StopActive | src/AspNetCore.MultiTenant/Services/TenantManagerHostedService.cs:45-56 | a pass over a snapshot of the active tenants: which are unregistered, which calls are made, each tenant's resulting state, and no idle tenant left if nothing threw |
| IdleReaper.TenantManagerHostedService.StopTenants | src/AspNetCore.MultiTenant/Services/TenantManagerHostedService.cs:32-62 | a zero or maximal interval changes nothing, tenants' states included; otherwise a pass that only removes tenants, never one that is not idle, reports its one error, and leaves no idle tenant if it succeeds |
| IdleReaper.TenantManagerHostedService.Execute | src/AspNetCore.MultiTenant/Services/TenantManagerHostedService.cs:14-30 | one pass per tick, against that tick's clock reading, until cancellation; a failed pass does not end the loop; a tenant not idle at any tick's reading is still registered at the end; with eviction disabled nothing changes on any tick, tenants' states included; after a successful last pass no tenant is idle at its reading |
| ResolutionBridge.IsRedirected | src/AspNetCore.MultiTenant/Hosting/TenantContextServiceProvider.cs:29-30 | a non-generic type or a definition is redirected iff it is in the set; a constructed type iff it or its definition, with the same name and arity, is |
| ResolutionBridge.Decide | src/AspNetCore.MultiTenant/Hosting/TenantContextServiceProvider.cs:18-49 | the tenant's service if its container can produce one (its own services, open generic registrations and every `IEnumerable<T>` included), else the host's in every case; a notice exactly for a type the tenant cannot produce, not redirected, with fallback on, the first time |
| ResolutionBridge.BuiltInsFromTenant | src/AspNetCore.MultiTenant/Hosting/TenantContextServiceProvider.cs:20-25 | a tenant request asking for `IServiceProvider`, `IServiceScopeFactory` or `IServiceProviderIsService` gets the tenant container's own, and the host is never asked and nothing announced |
| ResolutionBridge.NoticedAtMostOnce | src/AspNetCore.MultiTenant/Hosting/TenantContextServiceProvider.cs:16-45 | across any sequence of calls from any tenants, each type is announced at most once, and never one announced before |
| ResolutionBridge.NotifiedTypes.constructor | src/AspNetCore.MultiTenant/Hosting/TenantContextServiceProvider.cs:16 | the process-wide set of announced types starts empty |
| ResolutionBridge.NotifiedTypes.TryAdd | src/AspNetCore.MultiTenant/Hosting/TenantContextServiceProvider.cs:39 | the set only grows; the call reports true iff the type was absent |
| ResolutionBridge.TenantContextServiceProvider.constructor | src/AspNetCore.MultiTenant/Hosting/TenantContextServiceProvider.cs:10-14 | the bridge holds the tenant scope, the host scope and the shared set of announced types |
| ResolutionBridge.TenantContextServiceProvider.GetService | src/AspNetCore.MultiTenant/Hosting/TenantContextServiceProvider.cs:18-49 | the answer and the notice are `Decide`'s; the set of announced types gains the type only when it is announced |
| Collections.PropertyBag.Plain | src/AspNetCore.MultiTenant/Builder/TenantApplication.cs:29 | a plain dictionary holds exactly the given entries |
| Collections.PropertyBag.CopyOnWrite | src/AspNetCore.MultiTenant/Builder/TenantApplication.cs:40 | a copy-on-write dictionary reads exactly its parent's entries |
| Collections.PropertyBag.Entries | src/AspNetCore.MultiTenant/Builder/TenantApplication.cs:79 | the entries a read sees, own or inherited |
| Collections.PropertyBag.TryGetValue | src/AspNetCore.MultiTenant/Builder/TenantApplication.cs:79 | a key is found iff a read sees it, with the value a read sees |
| Collections.PropertyBag.Set | src/AspNetCore.MultiTenant/Builder/TenantApplication.cs:73 | the key now maps to the value, every other entry reads as before, and only this bag changes |
| Collections.PropertyBag.Remove | src/AspNetCore.MultiTenant/Builder/TenantApplication.cs:65 | the key is gone and the removed value is returned iff it was present; only this bag changes |
| Builder.Marked | src/AspNetCore.MultiTenant/Builder/TenantApplication.cs:83-111 | after `Build`, neither authentication nor authorization would be added again over the parent's bag; only the three marker keys change |
| Builder.PlannedLayers | src/AspNetCore.MultiTenant/Builder/TenantApplication.cs:76-133 | the built delegate runs routing (with data sources, no prior route builder), authentication, authorization (each with its services, not before), the components in order, endpoints (with data sources), then `next` |
| Builder.TenantApplication.constructor | src/AspNetCore.MultiTenant/Builder/TenantApplication.cs:26-35 | a new bag holding only the global route builder, mapped to the builder itself; no components and no data sources |
| Builder.TenantApplication.Copy | src/AspNetCore.MultiTenant/Builder/TenantApplication.cs:37-44 | the copy has the same code, containers and features, a copy-on-write bag over the original's, and empty lists |
| Builder.TenantApplication.Use | src/AspNetCore.MultiTenant/Builder/TenantApplication.cs:48-52 | exactly one component is appended at the end, and the same builder is returned |
| Builder.TenantApplication.New | src/AspNetCore.MultiTenant/Builder/TenantApplication.cs:54-57 | a new child builder that shares the code, containers and features, with empty lists |
| Builder.TenantApplication.AddDataSource | src/AspNetCore.MultiTenant/Builder/TenantApplication.cs:165 | the data source is appended |
| Builder.TenantApplication.SetApplicationServices | src/AspNetCore.MultiTenant/Builder/TenantApplication.cs:156-160 | setting `ApplicationServices` sets `TenantServices` |
| Builder.TenantApplication.BuildWithoutNext | src/AspNetCore.MultiTenant/Builder/TenantApplication.cs:162 | the parameterless `Build()` fails with `NotSupportedException` |
| Builder.TenantApplication.BuildInternal | src/AspNetCore.MultiTenant/Builder/TenantApplication.cs:136-146 | c0(c1(…cn-1(next))), and `next` itself with no components |
| Builder.TenantApplication.UseRouting | src/AspNetCore.MultiTenant/Builder/TenantApplication.cs:81-83 | the routing stage is appended; the global route builder (or a new one) becomes the route builder and the re-routing callback is stored |
| Builder.TenantApplication.UseAuthentication | src/AspNetCore.MultiTenant/Builder/TenantApplication.cs:103 | the authentication stage is appended and this builder's marker set |
| Builder.TenantApplication.UseAuthorization | src/AspNetCore.MultiTenant/Builder/TenantApplication.cs:112 | the authorization stage is appended and this builder's marker set |
| Builder.TenantApplication.UseEndpoints | src/AspNetCore.MultiTenant/Builder/TenantApplication.cs:121 | the endpoints stage is appended, on a builder that has a route builder |
| Builder.TenantApplication.NewChild | src/AspNetCore.MultiTenant/Builder/TenantApplication.cs:61-73 | the child's bag is the parent's without the route builder, which is returned, and with the parent as global route builder |
| Builder.TenantApplication.AddRoutingStage | src/AspNetCore.MultiTenant/Builder/TenantApplication.cs:76-90 | with data sources and no route builder on the parent, routing is added and its callback copied to the parent; with one, it is handed to the child; without data sources nothing happens |
| Builder.TenantApplication.AddAuthentication | src/AspNetCore.MultiTenant/Builder/TenantApplication.cs:94-105 | the stage is added only if its service is registered and the parent's bag lacks the marker, which is then set on both bags |
| Builder.TenantApplication.AddAuthorization | src/AspNetCore.MultiTenant/Builder/TenantApplication.cs:107-114 | the stage is added only if its service is registered and the parent's bag lacks the marker, which is then set on both bags |
| Builder.TenantApplication.AddStages | src/AspNetCore.MultiTenant/Builder/TenantApplication.cs:76-114 | routing, authentication and authorization stages in that order, each as its condition on the parent's bag says; the parent's bag ends `Marked` |
| Builder.TenantApplication.Finish | src/AspNetCore.MultiTenant/Builder/TenantApplication.cs:116-131 | the parent's components as one component, endpoints with data sources, the global route builder removed and a prior route builder restored |
| Builder.TenantApplication.Prepare | src/AspNetCore.MultiTenant/Builder/TenantApplication.cs:61-131 | the child's components are the planned stages; its bag lacks the global route builder and keeps any prior route builder; the parent's bag is `Marked` |
| Builder.TenantApplication.Build | src/AspNetCore.MultiTenant/Builder/TenantApplication.cs:59-134 | the delegate is the planned stages composed in front of `next`, and the parent's bag records the stages inserted |
| MultiTenantMiddleware.GuidGenerator.NewGuid | src/AspNetCore.MultiTenant/Extensions/ApplicationBuilderExtensions.cs:21 | each id handed out is new |
| MultiTenantMiddleware.MultiTenant.constructor | src/AspNetCore.MultiTenant/Extensions/ApplicationBuilderExtensions.cs:19-23 | each `UseMultiTenant` call gets a fresh middleware id, so separate call sites use separate cache entries |
| MultiTenantMiddleware.MultiTenant.ResolveCode | src/AspNetCore.MultiTenant/Extensions/ApplicationBuilderExtensions.cs:30-46 | the resolver is asked iff no non-null code is cached; a resolved code is cached; a null answer changes nothing |
| MultiTenantMiddleware.MultiTenant.FindTenant | src/AspNetCore.MultiTenant/Extensions/ApplicationBuilderExtensions.cs:48 | the tenant registered under the code, with a container; a registered tenant is returned with `LastAccessed` refreshed and nothing else changed; a failure is one of the throwing calls, for a code that was not registered |
| MultiTenantMiddleware.MultiTenant.Run | src/AspNetCore.MultiTenant/Extensions/ApplicationBuilderExtensions.cs:49-91 | the delegate cached for this call site by the tenant runs behind a new bridge over the request's services, or behind an outer call's bridge |
| MultiTenantMiddleware.MultiTenant.GetRequestDelegate | src/AspNetCore.MultiTenant/Extensions/ApplicationBuilderExtensions.cs:95-117 | a cache hit builds nothing; after the gate the re-check serves a delegate stored meanwhile; otherwise one pipeline is built and stored under this call site's id alone |
| MultiTenantMiddleware.MultiTenant.BuildTenantPipeline | src/AspNetCore.MultiTenant/Extensions/ApplicationBuilderExtensions.cs:108-111 | the tenant's delegate runs the planned stages around the configured components, then resets the request services, then the host's `next` |
| MultiTenantMiddleware.MultiTenant.ApplyConfigure | src/AspNetCore.MultiTenant/Extensions/ApplicationBuilderExtensions.cs:109 | the configuration's components and data sources end up on the builder, in order |
| MultiTenantMiddleware.MultiTenant.Dispatch | src/AspNetCore.MultiTenant/Extensions/ApplicationBuilderExtensions.cs:61-91 | a bridge in `Items` is reused and the delegate runs with it, with no new scope and no restore; otherwise the host provider is saved, the delegate runs with a new bridge over it, which is stored, and the request services are restored |
| MultiTenantMiddleware.MultiTenant.Serve | src/AspNetCore.MultiTenant/Extensions/ApplicationBuilderExtensions.cs:48-91 | the delegate that runs is this call site's one, cached by the tenant registered under the code, behind the outer bridge or a new one over the request's services; a registered tenant is used without building or starting anything; only a start failure keeps the delegate from running, and then the request is untouched; other `Items` keep their values |
| MultiTenantMiddleware.MultiTenant.RequestCode | src/AspNetCore.MultiTenant/Extensions/ApplicationBuilderExtensions.cs:30-46 | the request's code is the cached non-null one, else the resolver's answer |
| MultiTenantMiddleware.MultiTenant.Invoke | src/AspNetCore.MultiTenant/Extensions/ApplicationBuilderExtensions.cs:27-92 | the resolver is asked iff no code is cached; a null code fails before any tenant lookup and changes nothing; otherwise the tenant registered under the code runs this call site's cached delegate behind a bridge, unless its start fails; the request services are restored even if the delegate throws |
| HostExtensions.HostString.ToString | src/AspNetCore.MultiTenant/Extensions/TenantHostBuilderExtensions.cs:87 | the host name, followed by `:` and the port's decimal digits when there is a port |
| HostExtensions.Digits | src/AspNetCore.MultiTenant/Extensions/TenantHostBuilderExtensions.cs:87 | a port is written as non-empty decimal digits, a single digit exactly below ten |
| HostExtensions.DigitsInjective | src/AspNetCore.MultiTenant/Extensions/TenantHostBuilderExtensions.cs:87 | different ports are written differently |
| HostExtensions.DistinctPortsDistinctCodes | src/AspNetCore.MultiTenant/Extensions/TenantHostBuilderExtensions.cs:72-88 | with the port included, two different non-default ports on one host resolve to two different tenant codes |
| HostExtensions.ResolveByHost | src/AspNetCore.MultiTenant/Extensions/TenantHostBuilderExtensions.cs:72-88 | never null; the bare host without `includePort` or for port 80 over http and 443 over https; any other port, including 80 over https, is kept |
| HostExtensions.BareHostIff | src/AspNetCore.MultiTenant/Extensions/TenantHostBuilderExtensions.cs:76-87 | the answer is the bare host name iff the port is excluded, absent, or the scheme's default |
| HostExtensions.DefaultPrefix | src/AspNetCore.MultiTenant/Extensions/TenantHostBuilderExtensions.cs:22 | `[code] category`: the code between the brackets, then a space and the category |
| HostExtensions.DefaultPrefixInjective | src/AspNetCore.MultiTenant/Extensions/TenantHostBuilderExtensions.cs:22 | for codes without `]`, the prefixed name determines both the code and the category |
| HostExtensions.RedirectLoggingProvider.constructor | src/AspNetCore.MultiTenant/Extensions/TenantHostBuilderExtensions.cs:20-34 | the formatter is the caller's if one was supplied, else the default one; the category cache starts empty |
| HostExtensions.RedirectLoggingProvider.CreateLogger | src/AspNetCore.MultiTenant/Extensions/TenantHostBuilderExtensions.cs:37-51 | the host logger for the formatted name, which is `[code] category` when no formatter was supplied; the formatter runs only for a (code, category) pair not cached yet, whose name is then cached |
| Hosting.TenantHostEnvironment.constructor | src/AspNetCore.MultiTenant/Hosting/TenantHostEnvironment.cs:7-15 | the parent is the host's environment, if any; no overrides |
| Hosting.TenantHostEnvironment.EnvironmentName | src/AspNetCore.MultiTenant/Hosting/TenantHostEnvironment.cs:19 | the override, else the parent's, else `Production` |
| Hosting.TenantHostEnvironment.ApplicationName | src/AspNetCore.MultiTenant/Hosting/TenantHostEnvironment.cs:25 | the override, else the parent's, else empty |
| Hosting.TenantHostEnvironment.ContentRootPath | src/AspNetCore.MultiTenant/Hosting/TenantHostEnvironment.cs:31 | the override, else the parent's, else the working directory |
| Hosting.TenantHostEnvironment.ContentRootFileProvider | src/AspNetCore.MultiTenant/Hosting/TenantHostEnvironment.cs:41 | the override, else the parent's, else the shared null provider |
| Hosting.TenantHostEnvironment.SetEnvironmentName | src/AspNetCore.MultiTenant/Hosting/TenantHostEnvironment.cs:20 | the name reads back as set; only this instance changes |
| Hosting.TenantHostEnvironment.SetApplicationName | src/AspNetCore.MultiTenant/Hosting/TenantHostEnvironment.cs:26 | the name reads back as set; only this instance changes |
| Hosting.TenantHostEnvironment.SetContentRootPath | src/AspNetCore.MultiTenant/Hosting/TenantHostEnvironment.cs:32-36 | the path reads back as set, and the file-provider override is cleared, so the provider falls back again |
| Hosting.TenantHostEnvironment.SetContentRootFileProvider | src/AspNetCore.MultiTenant/Hosting/TenantHostEnvironment.cs:42 | the provider reads back as set; only this instance changes |
| Hosting.TenantWebHostEnvironment.constructor | src/AspNetCore.MultiTenant/Hosting/TenantWebHostEnvironment.cs:7-14 | a web root given at construction becomes the override; nothing else is set or cached |
| Hosting.TenantWebHostEnvironment.ApplicationName | src/AspNetCore.MultiTenant/Hosting/TenantWebHostEnvironment.cs:18 | the override, else the root's |
| Hosting.TenantWebHostEnvironment.EnvironmentName | src/AspNetCore.MultiTenant/Hosting/TenantWebHostEnvironment.cs:24 | the override, else the root's |
| Hosting.TenantWebHostEnvironment.ContentRootPath | src/AspNetCore.MultiTenant/Hosting/TenantWebHostEnvironment.cs:49 | the override, else the root's |
| Hosting.TenantWebHostEnvironment.CreateContentRootFileProvider | src/AspNetCore.MultiTenant/Hosting/TenantWebHostEnvironment.cs:34-45 | one physical provider when the content root is the root's; otherwise a composite of that provider and the root's, in that order |
| Hosting.TenantWebHostEnvironment.GetContentRootFileProvider | src/AspNetCore.MultiTenant/Hosting/TenantWebHostEnvironment.cs:30 | a held provider is reused; otherwise one is created and held |
| Hosting.TenantWebHostEnvironment.SetContentRootFileProvider | src/AspNetCore.MultiTenant/Hosting/TenantWebHostEnvironment.cs:31 | the given provider is held |
| Hosting.TenantWebHostEnvironment.SetContentRootPath | src/AspNetCore.MultiTenant/Hosting/TenantWebHostEnvironment.cs:50-54 | the path reads back as set, and the held content provider is dropped |
| Hosting.TenantWebHostEnvironment.WebRootPath | src/AspNetCore.MultiTenant/Hosting/TenantWebHostEnvironment.cs:65 | the override, else the root's web root, else `InvalidOperationException` |
| Hosting.TenantWebHostEnvironment.GetWebRootFileProvider | src/AspNetCore.MultiTenant/Hosting/TenantWebHostEnvironment.cs:59 | a held provider is reused; otherwise a physical provider over the web root is created and held; with no web root the error propagates and nothing is held |
| Hosting.TenantWebHostEnvironment.SetWebRootFileProvider | src/AspNetCore.MultiTenant/Hosting/TenantWebHostEnvironment.cs:60 | the given provider is held |
| Hosting.TenantWebHostEnvironment.SetWebRootPath | src/AspNetCore.MultiTenant/Hosting/TenantWebHostEnvironment.cs:66-70 | the web root reads back as set, and the held web-root provider is dropped |

## Left out

- Concurrency is not modelled: the `SemaphoreSlim` gates, the thread safety of `ConcurrentDictionary`, and interleavings across `await`. Operations run one at a time.
  - The registry's gate is modelled only as its re-check (`Initialize`).
  - The delegate cache's gate is modelled only as its re-check. The `meanwhile` parameter of `GetRequestDelegate` stands for a delegate another request stored while this one waited.
  - The release of a gate in `finally` is not modelled.
  - `ConcurrentDictionary.GetOrAdd` may run its factory twice under a race; `CreateLogger` is modelled sequentially.
- The dependency-injection container is modelled as an ordered list of registrations, resolved "last wins". `AddLogging()` stands for its `ILoggerFactory` and open generic `ILogger<>` registrations, and `AddOptions()` for its open generic `IOptions<>` registration; their other registrations are not modelled. Generic constraints, keyed services, and arity checks on open generic registrations are not modelled either. The following are not modelled: scopes, lifetimes, disposal of scopes, `DiagnosticListener`, and `IServiceProviderIsService` being absent (it is taken as present). The container's own services are the value `BuiltIn(t)` of the container asked; which scope object that is, and the scopes it creates, are not modelled.
- Disposal of a tenant's container is recorded only as a call. A built `ServiceProvider` is `IAsyncDisposable`, so the async branch is the one taken.
- The following ASP.NET Core parts are not part of this model; each is abstracted as the stage it appends plus the property-bag entries the tenant code relies on: `UseRouting`, `UseAuthentication`, `UseAuthorization` and `UseEndpoints`.
- `CopyOnWriteDictionary` is not part of this model; `Collections.PropertyBag` gives it the copy-on-write behaviour its use in `TenantApplication` assumes.
- Property values are never null in the model. `Build`'s `priorRouteBuilder is not null` test is therefore modelled as "the key was present".
- Time is an integer tick count passed in: `DateTimeOffset.UtcNow`, read once per pass of the reaper, and `Directory.GetCurrentDirectory()` for the working directory. The `PeriodicTimer`'s one-minute period decides when the clock is read; the model takes the readings as given and assumes no relation between them. Cancellation is the end of the sequence of ticks.
- Logging output is not modelled: the debug and error messages, and the logger factory (a logger is its category name).
- The environments' fallbacks (`??`) also apply when the parent's property is null. The model's parent properties are never null (an absent web root aside), so that case is not modelled.
- File providers are values (`PhysicalFileProvider(root)` and others), not file systems.
- The tenant resolver is a parameter of `Invoke`, namely its answer. `HostExtensions.ResolveByHost` is the one implementation of this library.
- The effect of running a tenant delegate is reduced to two parameters of `Invoke`: the request services it leaves behind (`leftAt`), and whether it throws.
- `HostExtensions.HostString.ToString`: `HostString` keeps the raw `Host` header text, while the model keeps the host name and a parsed port and writes the port in decimal. A port with leading zeros (`host:080`) therefore gives `host:80` in the model, and a port that does not parse (`host:abc`, whose `Port` is null) gives the bare host name in the model where the code gives `host:abc`. IPv6 brackets and punycode host names are not modelled.
- `Unsafe.As<TenantContextServiceProvider>` on the cached bridge is modelled by `WellKeyed`. Only the middleware writes its private `Items` keys, so the entry is a provider.
- The registration of the middleware on the outer application (`app.Use(next => ...)`) is not modelled. `MultiTenant` holds what its closures capture, including `next`.
- `TenantRequestDelegates.Semaphore` is not modelled: the cache is the `delegates` map alone.
- The following wiring is not part of this model, since it consists of registrations or one-line wrappers over the container: `ServiceExtensions.cs`, `TenantBuilder.cs`, `HostContext.cs`, `HttpContextExtensions.cs`, `TenantHostBuilder.cs`, the abstractions' `TenantHostBuilderExtensions.cs`, and `RedirectLoggingToHost`/`ResolveTenantByHost` beyond the resolver and logger provider.
- The interfaces and the example programs hold no logic and are not modelled.
- `IdleReaper.TenantManagerHostedService.StopTenants`: with eviction on, it states the pass only through what it removes, its error and the absence of idle tenants. The order of calls and the resulting states are stated by `StopActive`, which it calls.
- `MultiTenantMiddleware.Configure`: the `configure` callback is modelled as the components it `Use`s and the endpoint data sources it adds. A callback that calls `UseRouting`, `UseAuthentication` or `UseAuthorization` itself writes the route builder or a marker into the tenant builder's properties, so `Build` would then skip its own stage (`TenantApplication.cs:76-112`). The model does not capture that case, so `TenantStages` assumes those properties are untouched.
- `MultiTenantMiddleware.MultiTenant.FindTenant` does not restate the creation path for a new code; that is stated by `TenantRegistry.TenantService.GetOrStartTenant`, which it calls.

/**
 * `UseMultiTenant`: the host middleware that finds the request's tenant,
 * compiles (once per tenant and call site) the tenant's own pipeline, and
 * runs it with the request's services switched to the tenant's.
 */
module MultiTenantMiddleware {
  import opened Wrappers
  import opened ServiceModel
  import opened RequestPipeline
  import opened Lifecycle
  import opened TenantInstance
  import opened TenantRegistry
  import Builder

  /**
   * A request-services provider: a host scope, or the bridge of a tenant
   * scope over the provider that was current when it was made.
   */
  datatype Provider =
    | HostScope(id: nat)
    | TenantBridge(tenant: string, scope: nat, host: Provider)

  /** Keys of `HttpContext.Items`: the middleware's three private keys and anyone else's. */
  datatype ItemKey = TenantCodeKey | HostServiceProviderKey | TenantServiceProviderKey | UserKey(id: nat)

  datatype Item = CodeItem(code: string) | NullItem | ProviderItem(provider: Provider) | UserItem(id: nat)

  /**
   * Only this middleware writes its private keys: a cached code is a string
   * or null, and the two provider entries hold providers.
   */
  predicate WellKeyed(items: map<ItemKey, Item>)
  {
    && (TenantCodeKey in items ==> items[TenantCodeKey].CodeItem? || items[TenantCodeKey].NullItem?)
    && (HostServiceProviderKey in items ==> items[HostServiceProviderKey].ProviderItem?)
    && (TenantServiceProviderKey in items ==> items[TenantServiceProviderKey].ProviderItem?)
  }

  /** A non-null tenant code is cached for the request. */
  predicate HasCode(items: map<ItemKey, Item>)
  {
    TenantCodeKey in items && items[TenantCodeKey].CodeItem?
  }

  /** The part of `HttpContext` the middleware uses. */
  class HttpContext {
    var items: map<ItemKey, Item>
    var requestServices: Provider

    constructor (items: map<ItemKey, Item>, requestServices: Provider)
      ensures this.items == items && this.requestServices == requestServices
    {
      this.items := items;
      this.requestServices := requestServices;
    }
  }

  /** `Guid.NewGuid()`, as a generator handing out ids never seen before. */
  class GuidGenerator {
    /** The ids below this one have been handed out. */
    var issued: nat

    constructor ()
      ensures issued == 0
    {
      issued := 0;
    }

    method NewGuid() returns (id: nat)
      modifies this
      ensures id == old(issued) && issued == old(issued) + 1
    {
      id := issued;
      issued := issued + 1;
    }
  }

  /**
   * What the `configure` callback does to a tenant builder: components to
   * `Use`, endpoints to add. It does not call `UseRouting`,
   * `UseAuthentication` or `UseAuthorization` itself, so the builder's
   * properties are left as `Build` expects them.
   */
  datatype Configure = Configure(components: seq<Component>, dataSources: seq<nat>)

  datatype InvokeError =
    | TenantCodeNotFound  // InvalidOperationException("Tenant code not found.")
    | StartFailed(event: Event)
    | DelegateFailed

  /**
   * The stages of the delegate compiled for a tenant with container
   * registrations `services`: routing (with endpoints), authentication and
   * authorization (with their services), the configured components, endpoints
   * (with endpoints), the reset of the request services to the host's, then
   * the host pipeline's `next`.
   */
  function TenantStages(services: seq<Descriptor>, configure: Configure, next: RequestDelegate): seq<StageLabel>
  {
    Builder.LabelIf(|configure.dataSources| > 0, Routing)
    + Builder.LabelIf(IsService(services, AuthenticationSchemeProviderType), Authentication)
    + Builder.LabelIf(IsService(services, AuthorizationHandlerProviderType), Authorization)
    + Labels(configure.components)
    + Builder.LabelIf(|configure.dataSources| > 0, Endpoints)
    + [RestoreHostServices]
    + Layers(next)
  }

  /** The state of one `UseMultiTenant` registration: what its closures capture. */
  class MultiTenant {
    const middlewareId: nat
    const tenantService: TenantService
    const configure: Configure
    /** `app.ApplicationServices` and `app.ServerFeatures` of the host builder. */
    const hostServices: seq<Descriptor>
    const serverFeatures: nat
    /** The host pipeline after this middleware. */
    const next: RequestDelegate

    /** `UseMultiTenant(configure)`: a new middleware id for this call site. */
    constructor (guids: GuidGenerator, tenantService: TenantService, configure: Configure,
                 hostServices: seq<Descriptor>, serverFeatures: nat, next: RequestDelegate)
      modifies guids
      ensures middlewareId == old(guids.issued) && guids.issued == old(guids.issued) + 1
      ensures this.tenantService == tenantService && this.configure == configure
      ensures this.hostServices == hostServices && this.serverFeatures == serverFeatures && this.next == next
    {
      var id := guids.NewGuid();
      middlewareId := id;
      this.tenantService := tenantService;
      this.configure := configure;
      this.hostServices := hostServices;
      this.serverFeatures := serverFeatures;
      this.next := next;
    }

    /**
     * The request lambda. `resolved` is what the tenant resolver answers,
     * `meanwhile` a delegate another request stores while this one waits at
     * the cache's gate, `scope` the id of the tenant scope a new bridge would wrap,
     * `leftAt` the request services the tenant delegate leaves behind and
     * `delegateThrows` whether it throws. `servedBy` is the provider the
     * tenant delegate runs with.
     */
    method Invoke(context: HttpContext, resolved: Option<string>, now: int, faults: set<Event>,
                  meanwhile: Option<RequestDelegate>, scope: nat, leftAt: Provider, delegateThrows: bool)
      returns (error: Option<InvokeError>, ran: Option<RequestDelegate>, servedBy: Option<Provider>, resolverCalled: bool)
      requires tenantService.Valid() && WellKeyed(context.items)
      modifies context, tenantService`tenants, tenantService`builds, tenantService`trace,
               tenantService.tenants.Values`lastAccessed, tenantService.tenants.Values`state,
               set t | t in tenantService.tenants.Values && t.services.Some? :: t.services.value.requestDelegates
      ensures tenantService.Valid() && WellKeyed(context.items)
      // The resolver is asked only when no non-null code is cached.
      ensures resolverCalled <==> !HasCode(old(context.items))
      // A null code fails before any tenant lookup, changing nothing.
      ensures RequestCode(old(context.items), resolved).None? ==>
                error == Some(TenantCodeNotFound) && ran.None? && servedBy.None?
                && context.items == old(context.items) && context.requestServices == old(context.requestServices)
                && tenantService.tenants == old(tenantService.tenants)
                && tenantService.trace == old(tenantService.trace)
      // A resolved code is cached under the tenant-code key.
      ensures resolverCalled && resolved.Some? ==>
                TenantCodeKey in context.items && context.items[TenantCodeKey] == CodeItem(resolved.value)
      // With a code, the delegate that runs is the one cached for this call
      // site by the tenant registered under the code.
      ensures ran.Some? ==>
                && RequestCode(old(context.items), resolved).Some?
                && ServedByTenant(RequestCode(old(context.items), resolved).value, ran.value)
      // It runs behind a new bridge over the request's own services, or
      // behind the bridge an outer call made.
      ensures ran.Some? && TenantServiceProviderKey !in old(context.items) ==>
                servedBy == Some(TenantBridge(RequestCode(old(context.items), resolved).value, scope, old(context.requestServices)))
      ensures ran.Some? && TenantServiceProviderKey in old(context.items) ==>
                servedBy == Some(old(context.items)[TenantServiceProviderKey].provider)
      // The delegate runs unless the code is null or the tenant failed to start.
      ensures ran.None? <==> servedBy.None?
      ensures ran.None? <==> error.Some? && !error.value.DelegateFailed?
      // Without a bridge from an outer call, the request services are
      // restored, however the tenant delegate ends.
      ensures TenantServiceProviderKey !in old(context.items) ==> context.requestServices == old(context.requestServices)
      ensures error == Some(DelegateFailed) <==> ran.Some? && delegateThrows
      ensures error.Some? && error.value.StartFailed? ==> error.value.event in faults
    {
      var code;
      code, resolverCalled := ResolveCode(context, resolved);
      if code.None? {
        return Some(TenantCodeNotFound), None, None, resolverCalled;
      }
      error, ran, servedBy := Serve(context, code.value, now, faults, meanwhile, scope, leftAt, delegateThrows);
    }

    /** The request's tenant code: the cached one if it is not null, otherwise the resolver's answer. */
    function RequestCode(items: map<ItemKey, Item>, resolved: Option<string>): (code: Option<string>)
      ensures HasCode(items) ==> code == Some(items[TenantCodeKey].code)
      ensures !HasCode(items) ==> code == resolved
    {
      if HasCode(items) then Some(items[TenantCodeKey].code) else resolved
    }

    /** `d` is the delegate cached for this call site by the tenant registered under `code`. */
    predicate ServedByTenant(code: string, d: RequestDelegate)
      reads tenantService, tenantService.tenants.Values,
            set t | t in tenantService.tenants.Values && t.services.Some? :: t.services.value.requestDelegates
    {
      && code in tenantService.tenants
      && tenantService.tenants[code].services.Some?
      && middlewareId in tenantService.tenants[code].services.value.requestDelegates.delegates
      && d == tenantService.tenants[code].services.value.requestDelegates.delegates[middlewareId]
    }

    /** The request lambda once the code is known: the tenant, its delegate, and the run. */
    method Serve(context: HttpContext, code: string, now: int, faults: set<Event>,
                 meanwhile: Option<RequestDelegate>, scope: nat, leftAt: Provider, delegateThrows: bool)
      returns (error: Option<InvokeError>, ran: Option<RequestDelegate>, servedBy: Option<Provider>)
      requires tenantService.Valid() && WellKeyed(context.items)
      modifies context, tenantService`tenants, tenantService`builds, tenantService`trace,
               tenantService.tenants.Values`lastAccessed, tenantService.tenants.Values`state,
               set t | t in tenantService.tenants.Values && t.services.Some? :: t.services.value.requestDelegates
      ensures tenantService.Valid() && WellKeyed(context.items)
      ensures forall k :: k in old(context.items) && k != HostServiceProviderKey && k != TenantServiceProviderKey ==>
                            k in context.items && context.items[k] == old(context.items)[k]
      // The delegate that runs is this call site's, cached by the tenant registered under the code.
      ensures ran.Some? ==> ServedByTenant(code, ran.value)
      // A registered tenant is used as it is: nothing is built or started.
      ensures code in old(tenantService.tenants) ==>
                && ran.Some?
                && tenantService.tenants == old(tenantService.tenants)
                && tenantService.trace == old(tenantService.trace)
                && tenantService.tenants[code].lastAccessed == now
      // Without an outer bridge, a new bridge over the request's services is
      // stored and used, and the request services are put back.
      ensures ran.Some? && TenantServiceProviderKey !in old(context.items) ==>
                && servedBy == Some(TenantBridge(code, scope, old(context.requestServices)))
                && TenantServiceProviderKey in context.items && HostServiceProviderKey in context.items
                && context.items[TenantServiceProviderKey] == ProviderItem(servedBy.value)
                && context.items[HostServiceProviderKey] == ProviderItem(old(context.requestServices))
      // An outer bridge is reused as it is.
      ensures ran.Some? && TenantServiceProviderKey in old(context.items) ==>
                && servedBy == Some(old(context.items)[TenantServiceProviderKey].provider)
                && context.items == old(context.items)
                && context.requestServices == leftAt
      // Only a tenant that fails to start keeps the delegate from running; the request is then untouched.
      ensures ran.None? <==> error.Some? && error.value.StartFailed?
      ensures error != Some(TenantCodeNotFound)
      ensures ran.None? ==>
                servedBy.None? && context.items == old(context.items) && context.requestServices == old(context.requestServices)
      ensures TenantServiceProviderKey !in old(context.items) ==> context.requestServices == old(context.requestServices)
      ensures error == Some(DelegateFailed) <==> ran.Some? && delegateThrows
      ensures error.Some? && error.value.StartFailed? ==> error.value.event in faults
    {
      var tenant := FindTenant(code, now, faults);
      if tenant.Failure? {
        return Some(StartFailed(tenant.error)), None, None;
      }
      var requestDelegate, provider := Run(context, tenant.value, meanwhile, scope, leftAt);
      ran := Some(requestDelegate);
      servedBy := Some(provider);
      error := if delegateThrows then Some(DelegateFailed) else None;
    }

    /** The found tenant's delegate for this call site, run behind the bridge. */
    method Run(context: HttpContext, tenant: TenantContext, meanwhile: Option<RequestDelegate>, scope: nat, leftAt: Provider)
      returns (d: RequestDelegate, servedBy: Provider)
      requires tenant.services.Some? && WellKeyed(context.items)
      modifies context, tenant.services.value.requestDelegates
      ensures WellKeyed(context.items)
      ensures middlewareId in tenant.services.value.requestDelegates.delegates
              && d == tenant.services.value.requestDelegates.delegates[middlewareId]
      ensures TenantServiceProviderKey in old(context.items) ==>
                && servedBy == old(context.items)[TenantServiceProviderKey].provider
                && context.items == old(context.items) && context.requestServices == leftAt
      ensures TenantServiceProviderKey !in old(context.items) ==>
                && servedBy == TenantBridge(tenant.code, scope, old(context.requestServices))
                && context.items ==
                     old(context.items)[HostServiceProviderKey := ProviderItem(old(context.requestServices))]
                                       [TenantServiceProviderKey := ProviderItem(servedBy)]
                && context.requestServices == old(context.requestServices)
    {
      var built;
      d, built := GetRequestDelegate(tenant, tenant.services.value.requestDelegates, meanwhile);
      servedBy := Dispatch(context, tenant.code, d, scope, leftAt);
    }

    /**
     * `await tenantService.GetOrStartTenantAsync(code)`: the tenant registered
     * under the code, with a container, whose delegate cache was either
     * already reachable from the registry or is new.
     */
    method FindTenant(code: string, now: int, faults: set<Event>) returns (tenant: Result<TenantContext, Event>)
      requires tenantService.Valid()
      modifies tenantService`tenants, tenantService`builds, tenantService`trace,
               tenantService.tenants.Values`lastAccessed, tenantService.tenants.Values`state
      ensures tenantService.Valid()
      ensures tenant.Failure? ==> tenant.error in faults && code !in old(tenantService.tenants)
      ensures tenant.Success? ==>
                && code in tenantService.tenants && tenantService.tenants[code] == tenant.value
                && tenant.value.services.Some?
                && tenant.value.code == code
                && (|| tenant.value.services.value.requestDelegates in
                         old(set t | t in tenantService.tenants.Values && t.services.Some? :: t.services.value.requestDelegates)
                    || fresh(tenant.value.services.value.requestDelegates))
      // A registered tenant is returned with `LastAccessed` refreshed, and nothing else changes.
      ensures code in old(tenantService.tenants) ==>
                && tenant == Success(old(tenantService.tenants)[code]) && tenant.value.lastAccessed == now
                && tenantService.tenants == old(tenantService.tenants)
                && tenantService.trace == old(tenantService.trace)
    {
      tenant := tenantService.GetOrStartTenant(code, now, faults);
    }

    /**
     * The tenant code of the request: the cached one if it is not null,
     * otherwise the resolver's answer, which is cached; `None` for a null
     * answer.
     */
    method ResolveCode(context: HttpContext, resolved: Option<string>) returns (code: Option<string>, resolverCalled: bool)
      requires WellKeyed(context.items)
      modifies context`items
      ensures WellKeyed(context.items)
      ensures resolverCalled <==> !HasCode(old(context.items))
      ensures !resolverCalled ==> code == Some(old(context.items)[TenantCodeKey].code) && context.items == old(context.items)
      ensures resolverCalled ==> code == resolved
      ensures resolverCalled && resolved.None? ==> context.items == old(context.items)
      ensures resolverCalled && resolved.Some? ==> context.items == old(context.items)[TenantCodeKey := CodeItem(resolved.value)]
    {
      if TenantCodeKey !in context.items || context.items[TenantCodeKey].NullItem? {
        resolverCalled := true;
        code := resolved;
        if code.None? {
          return;
        }
        context.items := context.items[TenantCodeKey := CodeItem(code.value)];
      } else {
        resolverCalled := false;
        code := Some(context.items[TenantCodeKey].code);
      }
    }

    /**
     * The tenant's delegate for this call site: served from its cache, or
     * built behind the gate and stored. While this request waits at the gate,
     * another request for the same tenant and call site may store its own
     * delegate (`meanwhile`); the re-check behind the gate then serves that
     * one, so the delegate is built at most once.
     */
    method GetRequestDelegate(tenant: TenantContext, requestDelegates: TenantRequestDelegates,
                              meanwhile: Option<RequestDelegate>) returns (d: RequestDelegate, built: bool)
      requires tenant.services.Some?
      modifies requestDelegates
      ensures middlewareId in requestDelegates.delegates && d == requestDelegates.delegates[middlewareId]
      ensures built <==> middlewareId !in old(requestDelegates.delegates) && meanwhile.None?
      // A hit builds nothing and changes nothing.
      ensures middlewareId in old(requestDelegates.delegates) ==> requestDelegates.delegates == old(requestDelegates.delegates)
      // A delegate stored meanwhile is served as it is.
      ensures middlewareId !in old(requestDelegates.delegates) && meanwhile.Some? ==>
                requestDelegates.delegates == old(requestDelegates.delegates)[middlewareId := meanwhile.value]
      // Otherwise the tenant's pipeline is built and stored under this call site's id alone.
      ensures built ==>
                && requestDelegates.delegates == old(requestDelegates.delegates)[middlewareId := d]
                && Layers(d) == TenantStages(tenant.services.value.descriptors, configure, next)
                && Terminus(d) == Terminus(next)
    {
      if middlewareId in requestDelegates.delegates {
        return requestDelegates.delegates[middlewareId], false;
      }
      // await semaphore.WaitAsync()
      if meanwhile.Some? {
        requestDelegates.delegates := requestDelegates.delegates[middlewareId := meanwhile.value];
      }
      if middlewareId in requestDelegates.delegates {
        return requestDelegates.delegates[middlewareId], false;
      }
      var pipeline := BuildTenantPipeline(tenant);
      built := true;
      // GetOrAdd: every writer holds the gate, so the entry is still absent.
      requestDelegates.delegates := requestDelegates.delegates[middlewareId := pipeline];
      d := pipeline;
    }

    /**
     * A new root builder for the tenant, configured, then built in front of
     * the step that resets the request services to the host's and calls the
     * host pipeline's `next`.
     */
    method BuildTenantPipeline(tenant: TenantContext) returns (d: RequestDelegate)
      requires tenant.services.Some?
      ensures Layers(d) == TenantStages(tenant.services.value.descriptors, configure, next)
      ensures Terminus(d) == Terminus(next)
    {
      var services := tenant.services.value.descriptors;
      var tenantBuilder := new Builder.TenantApplication(services, serverFeatures, tenant.code, hostServices);
      ghost var bag := tenantBuilder.properties.Contents();
      ApplyConfigure(tenantBuilder);
      var terminal := Stage(RestoreHostServices, next);
      d := tenantBuilder.Build(terminal);
      Builder.PlannedLayers(|configure.dataSources| > 0, services, bag, configure.components, terminal);
    }

    /** `configure(tenantBuilder)`: its components in order, then its endpoints. */
    method ApplyConfigure(builder: Builder.TenantApplication)
      requires builder.components == [] && builder.dataSources == []
      modifies builder`components, builder`dataSources
      ensures builder.components == configure.components && builder.dataSources == configure.dataSources
    {
      var i := 0;
      while i < |configure.components|
        invariant 0 <= i <= |configure.components|
        invariant builder.components == configure.components[..i]
        invariant builder.dataSources == []
      {
        assert configure.components[..i + 1] == configure.components[..i] + [configure.components[i]];
        var _ := builder.Use(configure.components[i]);
        i := i + 1;
      }
      assert configure.components[..i] == configure.components;
      var j := 0;
      while j < |configure.dataSources|
        invariant 0 <= j <= |configure.dataSources|
        invariant builder.components == configure.components
        invariant builder.dataSources == configure.dataSources[..j]
      {
        assert configure.dataSources[..j + 1] == configure.dataSources[..j] + [configure.dataSources[j]];
        builder.AddDataSource(configure.dataSources[j]);
        j := j + 1;
      }
      assert configure.dataSources[..j] == configure.dataSources;
    }

    /**
     * Running the tenant delegate. A bridge made by an outer call is reused:
     * no new scope, no restore. Otherwise the current provider is saved as
     * the host's, a bridge over a new tenant scope becomes the request
     * services, and the saved provider is put back however the delegate ends.
     * `servedBy` is the provider the delegate runs with; the delegate itself
     * leaves the request services at `leftAt`.
     */
    method Dispatch(context: HttpContext, code: string, requestDelegate: RequestDelegate, scope: nat, leftAt: Provider)
      returns (servedBy: Provider)
      requires WellKeyed(context.items)
      modifies context
      ensures WellKeyed(context.items)
      ensures TenantServiceProviderKey in old(context.items) ==>
                && servedBy == old(context.items)[TenantServiceProviderKey].provider
                && context.items == old(context.items) && context.requestServices == leftAt
      ensures TenantServiceProviderKey !in old(context.items) ==>
                && servedBy == TenantBridge(code, scope, old(context.requestServices))
                && context.items ==
                     old(context.items)[HostServiceProviderKey := ProviderItem(old(context.requestServices))]
                                       [TenantServiceProviderKey := ProviderItem(servedBy)]
                && context.requestServices == old(context.requestServices)
    {
      if TenantServiceProviderKey in context.items {
        context.requestServices := context.items[TenantServiceProviderKey].provider;
        servedBy := context.requestServices;
        // await requestDelegate(context)
        context.requestServices := leftAt;
        return;
      }
      var previousServiceProvider := context.requestServices;
      context.items := context.items[HostServiceProviderKey := ProviderItem(previousServiceProvider)];
      // await using var scope = tenant.Services.CreateAsyncScope()
      var serviceProvider := TenantBridge(code, scope, context.requestServices);
      context.items := context.items[TenantServiceProviderKey := ProviderItem(serviceProvider)];
      context.requestServices := serviceProvider;
      servedBy := context.requestServices;
      // try { await requestDelegate(context); }
      context.requestServices := leftAt;
      // finally
      context.requestServices := previousServiceProvider;
    }
  }
}

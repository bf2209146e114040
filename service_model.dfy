/**
 * The narrow view of the dependency-injection container that the tenant
 * runtime relies on: service types, registrations in order, "last
 * registration wins" resolution, `TryAdd`, and the tenant container that the
 * registry builds.
 */
module ServiceModel {
  import opened Wrappers
  import RequestPipeline

  /**
   * A service type: a non-generic type, a constructed generic type
   * (`IOptions<Foo>`), or a generic type definition (`IOptions<>`).
   */
  datatype TypeRef =
    | Named(name: string)
    | Constructed(definition: string, arguments: seq<TypeRef>)
    | Definition(definition: string, arity: nat)
  {
    /** `Type.IsGenericType` */
    predicate IsGeneric() {
      !Named?
    }

    /** `Type.GetGenericTypeDefinition()`; only defined for generic types. */
    function GenericDefinition(): (d: TypeRef)
      requires IsGeneric()
      ensures d.Definition? && d.definition == definition
      // A constructed type's definition keeps its arity; a definition is its own.
      ensures Constructed? ==> d == Definition(definition, |arguments|)
      ensures Definition? ==> d == this
    {
      match this
      case Constructed(def, args) => Definition(def, |args|)
      case Definition(_, _) => this
    }
  }

  // Service types the runtime registers or queries by name.
  const HostedServiceType := Named("IHostedService")
  const TenantContextType := Named("ITenantContext")
  const HostEnvironmentType := Named("IHostEnvironment")
  const WebHostEnvironmentType := Named("IWebHostEnvironment")
  const HostContextType := Named("IHostContext")
  const MiddlewareFactoryType := Named("IMiddlewareFactory")
  const DiagnosticListenerType := Named("DiagnosticListener")
  const LoggerFactoryType := Named("ILoggerFactory")
  const LoggerType := Definition("ILogger", 1)
  const OptionsType := Definition("IOptions", 1)
  /** `IEnumerable<>`, which the container serves for every element type. */
  const EnumerableDefinition := "IEnumerable"
  const RequestDelegatesType := Named("TenantRequestDelegates")
  // Services every built container provides itself.
  const ServiceProviderType := Named("IServiceProvider")
  const ServiceScopeFactoryType := Named("IServiceScopeFactory")
  const ServiceProviderIsServiceType := Named("IServiceProviderIsService")
  const ServiceProviderIsKeyedServiceType := Named("IServiceProviderIsKeyedService")
  const AuthenticationSchemeProviderType := Named("IAuthenticationSchemeProvider")
  const AuthorizationHandlerProviderType := Named("IAuthorizationHandlerProvider")

  /**
   * What a registration resolves to: a service contributed by user code (a
   * hosted service among them, which may also implement
   * `IHostedLifecycleService`), one of the framework's own defaults, or one
   * of the services the container provides itself for `service` (the
   * provider of the scope asked, its scope factory, its `IsService` query).
   */
  datatype Impl =
    | UserService(id: nat, lifecycle: bool)
    | FrameworkService(name: string)
    | BuiltIn(service: TypeRef)
    | Enumerable(items: seq<Impl>)
  {
    predicate IsLifecycle() {
      UserService? && lifecycle
    }
  }

  datatype Descriptor = Descriptor(serviceType: TypeRef, implementation: Impl)

  /** Whether some registration is for `t` (`IServiceProviderIsService.IsService`). */
  predicate IsService(services: seq<Descriptor>, t: TypeRef)
  {
    exists i :: 0 <= i < |services| && services[i].serviceType == t
  }

  /** `GetService(t)`: the last registration for `t` wins; absent if there is none. */
  function Resolve(services: seq<Descriptor>, t: TypeRef): (r: Option<Impl>)
    ensures r.Some? <==> IsService(services, t)
    ensures r.Some? ==> exists i :: 0 <= i < |services| && services[i] == Descriptor(t, r.value)
                                   && forall j :: i < j < |services| ==> services[j].serviceType != t
  {
    if |services| == 0 then None
    else
      var last := services[|services| - 1];
      if last.serviceType == t then Some(last.implementation)
      else
        var r := Resolve(services[..|services| - 1], t);
        assert forall j :: 0 <= j < |services| - 1 ==> services[..|services| - 1][j] == services[j];
        r
  }

  /** `GetServices(t)`: every registration for `t`, in registration order. */
  function ResolveAll(services: seq<Descriptor>, t: TypeRef): (r: seq<Impl>)
    ensures |r| <= |services|
    ensures forall x :: x in r <==> Descriptor(t, x) in services
  {
    if |services| == 0 then []
    else
      var rest := ResolveAll(services[1..], t);
      if services[0].serviceType == t then [services[0].implementation] + rest else rest
  }

  /**
   * One more registration adds one more instance at the end of `GetServices`
   * exactly when it is for the type: one instance per registration, in
   * registration order, duplicates kept.
   */
  lemma {:induction false} ResolveAllAppend(services: seq<Descriptor>, d: Descriptor, t: TypeRef)
    ensures ResolveAll(services + [d], t) ==
              ResolveAll(services, t) + (if d.serviceType == t then [d.implementation] else [])
    decreases |services|
  {
    if |services| == 0 {
      assert services + [d] == [d];
      assert [d][1..] == [];
    } else {
      assert (services + [d])[0] == services[0];
      assert (services + [d])[1..] == services[1..] + [d];
      ResolveAllAppend(services[1..], d, t);
    }
  }

  /** `OfType<IHostedLifecycleService>()`: the lifecycle services, order kept. */
  function LifecycleServices(hosted: seq<Impl>): (r: seq<Impl>)
    ensures |r| <= |hosted|
    ensures forall x :: x in r <==> x in hosted && x.IsLifecycle()
  {
    if |hosted| == 0 then []
    else if hosted[0].IsLifecycle() then [hosted[0]] + LifecycleServices(hosted[1..])
    else LifecycleServices(hosted[1..])
  }

  /**
   * `OfType` keeps a further service at the end exactly when it is a
   * lifecycle service: order and duplicates are those of the input.
   */
  lemma {:induction false} LifecycleServicesAppend(hosted: seq<Impl>, x: Impl)
    ensures LifecycleServices(hosted + [x]) == LifecycleServices(hosted) + (if x.IsLifecycle() then [x] else [])
    decreases |hosted|
  {
    if |hosted| == 0 {
      assert hosted + [x] == [x];
      assert [x][1..] == [];
    } else {
      assert (hosted + [x])[0] == hosted[0];
      assert (hosted + [x])[1..] == hosted[1..] + [x];
      LifecycleServicesAppend(hosted[1..], x);
    }
  }

  /**
   * Whether a registration for `s` serves a request for `t`: the same type,
   * or the open generic definition of the constructed type `t`.
   */
  predicate Serves(s: TypeRef, t: TypeRef)
  {
    s == t || (t.Constructed? && s == t.GenericDefinition())
  }

  /** The instances `IEnumerable<t>` yields: every registration serving `t`, in registration order. */
  function Matching(services: seq<Descriptor>, t: TypeRef): (r: seq<Impl>)
    ensures forall x :: x in r <==> exists i :: 0 <= i < |services| && services[i].implementation == x && Serves(services[i].serviceType, t)
    decreases |services|
  {
    if |services| == 0 then []
    else
      var r := Matching(services[..|services| - 1], t);
      assert forall i :: 0 <= i < |services| - 1 ==> services[..|services| - 1][i] == services[i];
      var last := services[|services| - 1];
      r + (if Serves(last.serviceType, t) then [last.implementation] else [])
  }

  /**
   * The types a built container produces from itself, whatever is
   * registered: it adds their call sites to its cache when it is built, and
   * the cache is consulted before the registrations.
   */
  predicate IsBuiltIn(t: TypeRef)
  {
    || t == ServiceProviderType
    || t == ServiceScopeFactoryType
    || t == ServiceProviderIsServiceType
    || t == ServiceProviderIsKeyedServiceType
  }

  /** `IEnumerable<T>` for some `T`. */
  predicate IsEnumerable(t: TypeRef)
  {
    t.Constructed? && t.definition == EnumerableDefinition && |t.arguments| == 1
  }

  /**
   * Whether the container can produce `t`: it is one of the container's
   * own services, or it is registered, or it is a constructed type whose
   * open generic definition is registered, or it is an `IEnumerable<T>`,
   * which is always produced (empty if need be).
   */
  predicate CanResolve(services: seq<Descriptor>, t: TypeRef)
  {
    || IsBuiltIn(t)
    || IsService(services, t)
    || (t.Constructed? && IsService(services, t.GenericDefinition()))
    || IsEnumerable(t)
  }

  /**
   * The container's `GetService(t)`: its own service for a built-in type;
   * otherwise the last registration for `t` itself;
   * failing that, for a constructed type, the last registration of its open
   * generic definition; failing that, for `IEnumerable<T>`, the instances
   * for `T`; otherwise nothing.
   */
  function GetService(services: seq<Descriptor>, t: TypeRef): (r: Option<Impl>)
    ensures r.Some? <==> CanResolve(services, t)
    // The container's own services are produced whatever is registered.
    ensures IsBuiltIn(t) ==> r == Some(BuiltIn(t))
    // Otherwise an exact registration takes precedence, and is resolved "last wins".
    ensures !IsBuiltIn(t) && IsService(services, t) ==> r == Resolve(services, t)
    // An open generic registration serves every constructed type of its definition, again "last wins".
    ensures !IsService(services, t) && t.Constructed? && IsService(services, t.GenericDefinition()) ==>
              r.Some? && r == Resolve(services, t.GenericDefinition())
    // A request for an enumerable nobody registered yields every registration serving its element type.
    ensures IsEnumerable(t) && !IsService(services, t) && !IsService(services, t.GenericDefinition()) ==>
              r == Some(Enumerable(Matching(services, t.arguments[0])))
  {
    if IsBuiltIn(t) then Some(BuiltIn(t))
    else if IsService(services, t) then Resolve(services, t)
    else if t.Constructed? && IsService(services, t.GenericDefinition()) then Resolve(services, t.GenericDefinition())
    else if IsEnumerable(t) then Some(Enumerable(Matching(services, t.arguments[0])))
    else None
  }

  /** `TryAdd`: register `d` only when nothing is registered for its type yet. */
  function TryAdd(services: seq<Descriptor>, d: Descriptor): seq<Descriptor>
  {
    if IsService(services, d.serviceType) then services else services + [d]
  }

  /** A run of `TryAdd` calls, in order. */
  function TryAddAll(services: seq<Descriptor>, ds: seq<Descriptor>): seq<Descriptor>
    decreases |ds|
  {
    if |ds| == 0 then services else TryAddAll(TryAdd(services, ds[0]), ds[1..])
  }

  /** The first of `ds` registered for `t`, which is the one a run of `TryAdd` keeps. */
  function FirstFor(ds: seq<Descriptor>, t: TypeRef): Option<Impl>
  {
    if |ds| == 0 then None
    else if ds[0].serviceType == t then Some(ds[0].implementation)
    else FirstFor(ds[1..], t)
  }

  /** One `TryAdd`: a type already registered keeps its resolution; a new type resolves to `d`. */
  lemma {:induction false} TryAddResolution(services: seq<Descriptor>, d: Descriptor, t: TypeRef)
    ensures IsService(TryAdd(services, d), t) <==> IsService(services, t) || t == d.serviceType
    ensures IsService(services, t) ==> Resolve(TryAdd(services, d), t) == Resolve(services, t)
    ensures !IsService(services, t) && t == d.serviceType ==> Resolve(TryAdd(services, d), t) == Some(d.implementation)
  {
    if !IsService(services, d.serviceType) {
      var s' := services + [d];
      assert s'[..|s'| - 1] == services;
      assert s'[|s'| - 1] == d;
      if IsService(services, t) {
        var i :| 0 <= i < |services| && services[i].serviceType == t;
        assert s'[i] == services[i];
      }
    }
  }

  /**
   * A run of `TryAdd` calls never overrides an earlier registration: a type
   * already registered resolves as before, and a type registered by none of
   * `services` resolves to the first of `ds` for it.
   */
  lemma {:induction false} TryAddAllResolution(services: seq<Descriptor>, ds: seq<Descriptor>, t: TypeRef)
    ensures IsService(services, t) ==> Resolve(TryAddAll(services, ds), t) == Resolve(services, t)
    ensures !IsService(services, t) ==> Resolve(TryAddAll(services, ds), t) == FirstFor(ds, t)
    decreases |ds|
  {
    if |ds| > 0 {
      TryAddResolution(services, ds[0], t);
      TryAddAllResolution(TryAdd(services, ds[0]), ds[1..], t);
    }
  }

  /**
   * A tenant's root container (`ServiceProvider`): the registrations it was
   * built from, a serial number telling builds apart, and the
   * `TenantRequestDelegates` singleton it owns.
   */
  datatype ServiceProvider = ServiceProvider(
    serial: nat,
    descriptors: seq<Descriptor>,
    requestDelegates: RequestPipeline.TenantRequestDelegates)
  {
    /** `GetServices<IHostedService>()` */
    function HostedServices(): seq<Impl> {
      ResolveAll(descriptors, HostedServiceType)
    }
  }
}

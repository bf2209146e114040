/**
 * `TenantService`: the registry of running tenants. It creates a tenant on
 * first lookup (initializers, container build, three start phases), touches
 * `lastAccessed` on later lookups, and stops a tenant by removing it and
 * running the three stop phases before disposing its container.
 *
 * Every initializer and hook call is appended to `trace`. A call whose event
 * is in `faults` throws after it has been recorded.
 */
module TenantRegistry {
  import opened Wrappers
  import opened ServiceModel
  import opened Lifecycle
  import opened TenantInstance
  import RequestPipeline

  /** An `ITenantInitializer`: what it registers on the builder of a tenant code. */
  datatype Initializer = Initializer(id: nat, configure: string -> seq<Descriptor>)

  /** One `InitializeAsync` call per initializer, in enumeration order. */
  function InitEvents(inits: seq<Initializer>, code: string): seq<Event>
  {
    seq(|inits|, i requires 0 <= i < |inits| => Initialized(inits[i].id, code))
  }

  /** What the initializers register, in order. */
  function Registrations(inits: seq<Initializer>, code: string): seq<Descriptor>
    decreases |inits|
  {
    if |inits| == 0 then [] else Registrations(inits[..|inits| - 1], code) + inits[|inits| - 1].configure(code)
  }

  /** `services.AddSingleton<TenantRequestDelegates>()`, made before any initializer runs. */
  const RequestDelegatesDescriptor := Descriptor(RequestDelegatesType, FrameworkService("TenantRequestDelegates"))

  /**
   * The defaults added after the initializers, in source order, each with
   * `TryAdd`. `AddLogging()` is represented by its `ILoggerFactory` and open
   * generic `ILogger<>` registrations, `AddOptions()` by its open generic
   * `IOptions<>` one.
   */
  const FrameworkDefaults: seq<Descriptor> :=
    [ Descriptor(DiagnosticListenerType, FrameworkService("DiagnosticListener")),
      Descriptor(LoggerFactoryType, FrameworkService("LoggerFactory")),
      Descriptor(LoggerType, FrameworkService("Logger")),
      Descriptor(OptionsType, FrameworkService("OptionsManager")),
      Descriptor(TenantContextType, FrameworkService("TenantContext")),
      Descriptor(HostEnvironmentType, FrameworkService("TenantHostEnvironment")),
      Descriptor(HostContextType, FrameworkService("HostContext")),
      Descriptor(MiddlewareFactoryType, FrameworkService("MiddlewareFactory")),
      Descriptor(WebHostEnvironmentType, FrameworkService("TenantWebHostEnvironment")),
      Descriptor(HostEnvironmentType, FrameworkService("TenantWebHostEnvironment")) ]

  /** The registrations a new tenant's container is built from. */
  function TenantDescriptors(inits: seq<Initializer>, code: string): seq<Descriptor>
  {
    TryAddAll([RequestDelegatesDescriptor] + Registrations(inits, code), FrameworkDefaults)
  }

  /**
   * An initializer's own registration of a type wins over the framework
   * default for it, since the defaults are added with `TryAdd` afterwards.
   */
  lemma InitializerRegistrationWins(inits: seq<Initializer>, code: string, t: TypeRef)
    requires IsService(Registrations(inits, code), t)
    ensures Resolve(TenantDescriptors(inits, code), t) == Resolve([RequestDelegatesDescriptor] + Registrations(inits, code), t)
  {
    var base := [RequestDelegatesDescriptor] + Registrations(inits, code);
    var i :| 0 <= i < |Registrations(inits, code)| && Registrations(inits, code)[i].serviceType == t;
    assert base[i + 1].serviceType == t;
    TryAddAllResolution(base, FrameworkDefaults, t);
  }

  /** Registrations for other types in front of a list do not change the first one for `t`. */
  lemma {:induction false} FirstForSkip(ds: seq<Descriptor>, k: nat, t: TypeRef)
    requires k <= |ds|
    requires forall i :: 0 <= i < k ==> ds[i].serviceType != t
    ensures FirstFor(ds, t) == FirstFor(ds[k..], t)
    decreases k
  {
    if k > 0 {
      assert ds[1..][k - 1..] == ds[k..];
      FirstForSkip(ds[1..], k - 1, t);
    }
  }

  /** Of the defaults, the first for `IHostEnvironment` is the non-web environment. */
  lemma DefaultsFirstFor()
    ensures FirstFor(FrameworkDefaults, HostEnvironmentType) == Some(FrameworkService("TenantHostEnvironment"))
    ensures FirstFor(FrameworkDefaults, WebHostEnvironmentType) == Some(FrameworkService("TenantWebHostEnvironment"))
  {
    var d := FrameworkDefaults;
    FirstForSkip(d, 5, HostEnvironmentType);
    FirstForSkip(d, 8, WebHostEnvironmentType);
  }

  /** The service-type lookups of `[d] + regs` and `regs` agree apart from `d`. */
  lemma IsServiceAfterSingleton(d: Descriptor, regs: seq<Descriptor>, t: TypeRef)
    ensures IsService([d] + regs, t) <==> d.serviceType == t || IsService(regs, t)
  {
    var base := [d] + regs;
    if d.serviceType == t {
      assert base[0] == d;
    }
    if IsService(base, t) && d.serviceType != t {
      var i :| 0 <= i < |base| && base[i].serviceType == t;
      assert i > 0 && regs[i - 1] == base[i];
    }
    if IsService(regs, t) {
      var i :| 0 <= i < |regs| && regs[i].serviceType == t;
      assert base[i + 1] == regs[i];
    }
  }

  /**
   * Unless an initializer registers `IHostEnvironment`, it resolves to the
   * `TenantHostEnvironment`: the later `TryAdd` of the web environment under
   * that type is a no-op.
   */
  lemma HostEnvironmentDefault(inits: seq<Initializer>, code: string)
    requires !IsService(Registrations(inits, code), HostEnvironmentType)
    ensures Resolve(TenantDescriptors(inits, code), HostEnvironmentType) == Some(FrameworkService("TenantHostEnvironment"))
  {
    IsServiceAfterSingleton(RequestDelegatesDescriptor, Registrations(inits, code), HostEnvironmentType);
    TryAddAllResolution([RequestDelegatesDescriptor] + Registrations(inits, code), FrameworkDefaults, HostEnvironmentType);
    DefaultsFirstFor();
  }

  /** `IWebHostEnvironment` resolves to the tenant's web environment unless an initializer registers one. */
  lemma WebHostEnvironmentDefault(inits: seq<Initializer>, code: string)
    ensures Resolve(TenantDescriptors(inits, code), WebHostEnvironmentType) ==
              if IsService(Registrations(inits, code), WebHostEnvironmentType)
              then Resolve(Registrations(inits, code), WebHostEnvironmentType)
              else Some(FrameworkService("TenantWebHostEnvironment"))
  {
    var regs := Registrations(inits, code);
    IsServiceAfterSingleton(RequestDelegatesDescriptor, regs, WebHostEnvironmentType);
    TryAddAllResolution([RequestDelegatesDescriptor] + regs, FrameworkDefaults, WebHostEnvironmentType);
    DefaultsFirstFor();
    if IsService(regs, WebHostEnvironmentType) {
      ResolveAfterSingleton(RequestDelegatesDescriptor, regs, WebHostEnvironmentType);
    }
  }

  /**
   * `IOptions<T>` and `ILogger<T>` in a tenant's container: unless an
   * initializer registers the constructed type itself, they are served by
   * the initializers' last registration of the open generic definition, or
   * else by the one `AddOptions()` or `AddLogging()` adds.
   */
  lemma OpenGenericDefaults(inits: seq<Initializer>, code: string, arg: TypeRef)
    requires !IsService(Registrations(inits, code), Constructed(OptionsType.definition, [arg]))
    requires !IsService(Registrations(inits, code), Constructed(LoggerType.definition, [arg]))
    ensures GetService(TenantDescriptors(inits, code), Constructed(OptionsType.definition, [arg])) ==
              if IsService(Registrations(inits, code), OptionsType)
              then Resolve(Registrations(inits, code), OptionsType)
              else Some(FrameworkService("OptionsManager"))
    ensures GetService(TenantDescriptors(inits, code), Constructed(LoggerType.definition, [arg])) ==
              if IsService(Registrations(inits, code), LoggerType)
              then Resolve(Registrations(inits, code), LoggerType)
              else Some(FrameworkService("Logger"))
  {
    OpenGenericDefault(inits, code, arg, 3);
    OpenGenericDefault(inits, code, arg, 2);
  }

  /** `OpenGenericDefaults` for the open generic default at position `k` of the defaults. */
  lemma OpenGenericDefault(inits: seq<Initializer>, code: string, arg: TypeRef, k: nat)
    requires k < |FrameworkDefaults| && FrameworkDefaults[k].serviceType.Definition?
    requires FrameworkDefaults[k].serviceType.arity == 1
    requires forall i :: 0 <= i < k ==> FrameworkDefaults[i].serviceType != FrameworkDefaults[k].serviceType
    requires !IsService(Registrations(inits, code), Constructed(FrameworkDefaults[k].serviceType.definition, [arg]))
    ensures GetService(TenantDescriptors(inits, code), Constructed(FrameworkDefaults[k].serviceType.definition, [arg])) ==
              if IsService(Registrations(inits, code), FrameworkDefaults[k].serviceType)
              then Resolve(Registrations(inits, code), FrameworkDefaults[k].serviceType)
              else Some(FrameworkDefaults[k].implementation)
  {
    var regs := Registrations(inits, code);
    var base := [RequestDelegatesDescriptor] + regs;
    var def := FrameworkDefaults[k].serviceType;
    var t := Constructed(def.definition, [arg]);
    assert t.GenericDefinition() == def;
    // No initializer and no default registers the constructed type itself.
    IsServiceAfterSingleton(RequestDelegatesDescriptor, regs, t);
    TryAddAllResolution(base, FrameworkDefaults, t);
    assert forall i :: 0 <= i < |FrameworkDefaults| ==> !FrameworkDefaults[i].serviceType.Constructed?;
    FirstForSkip(FrameworkDefaults, |FrameworkDefaults|, t);
    // The definition resolves as the initializers left it, or to the default.
    IsServiceAfterSingleton(RequestDelegatesDescriptor, regs, def);
    TryAddAllResolution(base, FrameworkDefaults, def);
    FirstForSkip(FrameworkDefaults, k, def);
    if IsService(regs, def) {
      ResolveAfterSingleton(RequestDelegatesDescriptor, regs, def);
    }
  }

  /** A registration in front of a list that registers `t` does not change how `t` resolves. */
  lemma {:induction false} ResolveAfterSingleton(d: Descriptor, regs: seq<Descriptor>, t: TypeRef)
    requires IsService(regs, t)
    ensures Resolve([d] + regs, t) == Resolve(regs, t)
    decreases |regs|
  {
    var s := [d] + regs;
    assert s[..|s| - 1] == [d] + regs[..|regs| - 1];
    if regs[|regs| - 1].serviceType != t {
      assert IsService(regs[..|regs| - 1], t) by {
        var i :| 0 <= i < |regs| && regs[i].serviceType == t;
        assert regs[..|regs| - 1][i] == regs[i];
      }
      ResolveAfterSingleton(d, regs[..|regs| - 1], t);
    }
  }

  /**
   * The calls one stop makes: the stop phases up to the first throw, then,
   * if none threw, the asynchronous dispose of the container.
   */
  function StopTrace(container: ServiceProvider, faults: set<Event>): seq<Event>
  {
    var stops := ShutdownEvents(container.HostedServices());
    UntilFault(stops, faults) + if Faultless(stops, faults) then [Disposed(container.serial, true)] else []
  }

  class TenantService {
    /** The `ITenantInitializer`s, in enumeration order. */
    const initializers: seq<Initializer>
    /** `_tenantServiceProviders` */
    var tenants: map<string, TenantContext>
    /** How many containers have been built; the next one gets this serial. */
    var builds: nat
    /** The initializer, build, hook and dispose calls made so far. */
    var trace: seq<Event>

    /** Each entry is filed under its own code and has its container. */
    ghost predicate Valid()
      reads this, tenants.Values
    {
      forall c :: c in tenants ==> tenants[c].code == c && tenants[c].services.Some?
    }

    constructor (initializers: seq<Initializer>)
      ensures Valid()
      ensures this.initializers == initializers
      ensures tenants == map[] && builds == 0 && trace == []
    {
      this.initializers := initializers;
      tenants := map[];
      builds := 0;
      trace := [];
    }

    /**
     * `ActiveTenants`: a snapshot of the registered tenants, each once, in the
     * (unspecified) order the concurrent map yields them.
     */
    method ActiveTenants() returns (snapshot: seq<TenantContext>)
      ensures forall t :: t in snapshot <==> t in tenants.Values
      ensures forall i, j :: 0 <= i < j < |snapshot| ==> snapshot[i] != snapshot[j]
    {
      snapshot := [];
      var rest := tenants.Values;
      while rest != {}
        invariant rest <= tenants.Values
        invariant forall t :: t in snapshot <==> t in tenants.Values && t !in rest
        invariant forall i, j :: 0 <= i < j < |snapshot| ==> snapshot[i] != snapshot[j]
        decreases |rest|
      {
        var t :| t in rest;
        snapshot := snapshot + [t];
        rest := rest - {t};
      }
    }

    /** One phase: the hook of each service in order; the first throw ends it. */
    method RunPhase(phase: Phase, services: seq<Impl>, faults: set<Event>) returns (thrown: Option<Event>)
      modifies this`trace
      ensures trace == old(trace) + UntilFault(PhaseEvents(phase, services), faults)
      ensures thrown.None? <==> Faultless(PhaseEvents(phase, services), faults)
      ensures thrown.Some? ==> thrown.value in faults
    {
      ghost var es := PhaseEvents(phase, services);
      var i := 0;
      while i < |services|
        invariant 0 <= i <= |services|
        invariant trace == old(trace) + es[..i]
        invariant Faultless(es[..i], faults)
      {
        var e := Hook(phase, services[i]);
        trace := trace + [e];
        if e in faults {
          assert es[i] == e;
          UntilFaultAt(es, faults, i);
          assert es[..i + 1] == es[..i] + [e];
          thrown := Some(e);
          return;
        }
        assert es[..i + 1] == es[..i] + [e];
        i := i + 1;
      }
      assert es[..i] == es;
      UntilFaultAt(es, faults, i);
      thrown := None;
    }

    /** Three phases, each for all its services before the next begins. */
    method RunPhases(before: Phase, during: Phase, after: Phase, hosted: seq<Impl>, faults: set<Event>)
      returns (thrown: Option<Event>)
      modifies this`trace
      ensures trace == old(trace) + UntilFault(ThreePhases(before, during, after, hosted), faults)
      ensures thrown.None? <==> Faultless(ThreePhases(before, during, after, hosted), faults)
      ensures thrown.Some? ==> thrown.value in faults
    {
      var lifecycle := LifecycleServices(hosted);
      thrown := RunThree(before, lifecycle, during, hosted, after, lifecycle, faults);
    }

    /** The three phase loops one after the other, over any three service lists. */
    method RunThree(p: Phase, ps: seq<Impl>, q: Phase, qs: seq<Impl>, r: Phase, rs: seq<Impl>, faults: set<Event>)
      returns (thrown: Option<Event>)
      modifies this`trace
      ensures trace == old(trace) + UntilFault(PhaseEvents(p, ps) + PhaseEvents(q, qs) + PhaseEvents(r, rs), faults)
      ensures thrown.None? <==> Faultless(PhaseEvents(p, ps) + PhaseEvents(q, qs) + PhaseEvents(r, rs), faults)
      ensures thrown.Some? ==> thrown.value in faults
    {
      ghost var a, b, c := PhaseEvents(p, ps), PhaseEvents(q, qs), PhaseEvents(r, rs);
      ghost var t0 := trace;
      thrown := RunPhase(p, ps, faults);
      if thrown.Some? {
        ThreeFirstThrows(a, b, c, faults);
        return;
      }
      UntilFaultFaultless(a, faults);
      thrown := RunPhase(q, qs, faults);
      if thrown.Some? {
        ThreeSecondThrows(a, b, c, faults);
        assert trace == t0 + (a + UntilFault(b, faults));
        return;
      }
      UntilFaultFaultless(b, faults);
      ThreeReachesThird(a, b, c, faults);
      thrown := RunPhase(r, rs, faults);
      assert trace == t0 + (a + b + UntilFault(c, faults));
    }

    /**
     * `InitializeAsync`, the creation path behind the gate. The map is
     * checked again first: a tenant registered meanwhile is returned as it
     * is, without touching `lastAccessed`. Otherwise the initializers run in
     * order against one builder for `code`, the defaults are added with
     * `TryAdd`, the container is built, and the tenant is registered BEFORE
     * the start phases run; it becomes Running only if none of them throws.
     */
    method Initialize(code: string, now: int, faults: set<Event>) returns (r: Result<TenantContext, Event>)
      requires Valid()
      modifies this`tenants, this`builds, this`trace
      ensures Valid()
      ensures code in old(tenants) ==>
                r == Success(old(tenants)[code]) && tenants == old(tenants)
                && builds == old(builds) && trace == old(trace)
      ensures code !in old(tenants) ==> Created(code, now, faults, r)
      ensures code !in old(tenants) && code in tenants ==>
                fresh(tenants[code].services.value.requestDelegates)
                && tenants[code].services.value.requestDelegates.delegates == map[]
    {
      // await _semaphore.WaitAsync(): the model runs one operation at a time.
      if code in tenants {
        r := Success(tenants[code]);
        return;
      }
      r := Create(code, now, faults);
    }

    /** The creation path of `Initialize`, for a code still absent behind the gate. */
    method Create(code: string, now: int, faults: set<Event>) returns (r: Result<TenantContext, Event>)
      requires Valid()
      requires code !in tenants
      modifies this`tenants, this`builds, this`trace
      ensures Valid()
      ensures Created(code, now, faults, r)
      ensures code in tenants ==>
                fresh(tenants[code].services.value.requestDelegates)
                && tenants[code].services.value.requestDelegates.delegates == map[]
    {
      r := Register(code, now, faults);
      if r.Failure? {
        return;
      }
      // _semaphore.Release(); the start phases run outside the gate.
      var thrown := Start(r.value, faults);
      if thrown.Some? {
        r := Failure(thrown.value);
      }
    }

    /**
     * The start phases of a registered tenant's hosted services; the tenant
     * becomes Running only if none of them throws.
     */
    method Start(tenant: TenantContext, faults: set<Event>) returns (thrown: Option<Event>)
      requires Valid() && tenant.services.Some?
      modifies this`trace, tenant`state
      ensures Valid()
      ensures trace == old(trace) + UntilFault(StartupEvents(tenant.services.value.HostedServices()), faults)
      ensures thrown.None? <==> Faultless(StartupEvents(tenant.services.value.HostedServices()), faults)
      ensures thrown.Some? ==> thrown.value in faults
      ensures tenant.state == if thrown.None? then TenantState.Running else old(tenant.state)
    {
      thrown := RunPhases(Phase.Starting, Phase.Start, Phase.Started, tenant.services.value.HostedServices(), faults);
      if thrown.None? {
        tenant.state := TenantState.Running;
      }
    }

    /**
     * The body of the gated block of `InitializeAsync` once the re-check has
     * missed: run the initializers, add the defaults, build the container and
     * register the new tenant, still Starting.
     */
    method Register(code: string, now: int, faults: set<Event>) returns (r: Result<TenantContext, Event>)
      requires Valid()
      requires code !in tenants
      modifies this`tenants, this`builds, this`trace
      ensures Valid()
      ensures r.Failure? <==> !Faultless(InitEvents(initializers, code), faults)
      ensures r.Failure? ==>
                r.error in faults && tenants == old(tenants) && builds == old(builds)
                && trace == old(trace) + UntilFault(InitEvents(initializers, code), faults)
      ensures r.Success? ==>
                && fresh(r.value)
                && r.value.code == code
                && tenants == old(tenants)[code := r.value]
                && builds == old(builds) + 1
                && r.value.lastAccessed == now
                && r.value.state == TenantState.Starting
                && r.value.services.Some?
                && r.value.services.value.serial == old(builds)
                && r.value.services.value.descriptors == TenantDescriptors(initializers, code)
                && fresh(r.value.services.value.requestDelegates)
                && r.value.services.value.requestDelegates.delegates == map[]
                && trace == old(trace) + InitEvents(initializers, code) + [Built(old(builds))]
    {
      var services, thrown := RunInitializers(code, faults);
      if thrown.Some? {
        r := Failure(thrown.value);
        return;
      }
      UntilFaultShape(InitEvents(initializers, code), faults);
      var tenant := BuildTenant(code, now, services);
      tenants := tenants[code := tenant];
      r := Success(tenant);
    }

    /**
     * After the initializers: add the framework defaults, build the container
     * (with its `TenantRequestDelegates` singleton) and attach it to a new
     * `TenantContext`. The source allocates the `TenantContext` before the
     * initializers run; it is unobservable until it is registered, so the
     * model allocates it here.
     */
    method BuildTenant(code: string, now: int, services: seq<Descriptor>) returns (tenant: TenantContext)
      modifies this`builds, this`trace
      ensures fresh(tenant) && tenant.services.Some? && fresh(tenant.services.value.requestDelegates)
      ensures tenant.code == code && tenant.lastAccessed == now && tenant.state == TenantState.Starting
      ensures tenant.services == Some(ServiceProvider(old(builds), TryAddAll(services, FrameworkDefaults), tenant.services.value.requestDelegates))
      ensures tenant.services.value.requestDelegates.delegates == map[]
      ensures builds == old(builds) + 1 && trace == old(trace) + [Built(old(builds))]
    {
      tenant := new TenantContext(code, now);
      var requestDelegates := new RequestPipeline.TenantRequestDelegates();
      var container := ServiceProvider(builds, TryAddAll(services, FrameworkDefaults), requestDelegates);
      builds := builds + 1;
      trace := trace + [Built(container.serial)];
      tenant.services := Some(container);
    }

    /**
     * `TenantRequestDelegates` is registered, then every initializer runs once,
     * in enumeration order, against the same builder for `code`; the first
     * that throws ends the run.
     */
    method RunInitializers(code: string, faults: set<Event>) returns (services: seq<Descriptor>, thrown: Option<Event>)
      modifies this`trace
      ensures trace == old(trace) + UntilFault(InitEvents(initializers, code), faults)
      ensures thrown.None? <==> Faultless(InitEvents(initializers, code), faults)
      ensures thrown.Some? ==> thrown.value in faults
      ensures thrown.None? ==> services == [RequestDelegatesDescriptor] + Registrations(initializers, code)
    {
      services := [RequestDelegatesDescriptor];
      ghost var ie := InitEvents(initializers, code);
      var i := 0;
      while i < |initializers|
        invariant 0 <= i <= |initializers|
        invariant services == [RequestDelegatesDescriptor] + Registrations(initializers[..i], code)
        invariant trace == old(trace) + ie[..i]
        invariant Faultless(ie[..i], faults)
      {
        var e := Initialized(initializers[i].id, code);
        trace := trace + [e];
        assert ie[i] == e;
        assert ie[..i + 1] == ie[..i] + [e];
        if e in faults {
          UntilFaultAt(ie, faults, i);
          thrown := Some(e);
          return;
        }
        assert initializers[..i + 1][..i] == initializers[..i];
        services := services + initializers[i].configure(code);
        i := i + 1;
      }
      assert ie[..i] == ie;
      assert initializers[..i] == initializers;
      UntilFaultAt(ie, faults, i);
      thrown := None;
    }

    /** What `Initialize` does when the code is still absent behind the gate. */
    twostate predicate Created(code: string, now: int, faults: set<Event>, new r: Result<TenantContext, Event>)
      reads this, tenants.Values
    {
      var ie := InitEvents(initializers, code);
      if !Faultless(ie, faults) then
        // An initializer threw: nothing is built or registered.
        && r.Failure? && r.error in faults
        && tenants == old(tenants) && builds == old(builds)
        && trace == old(trace) + UntilFault(ie, faults)
      else
        && code in tenants
        && var t := tenants[code];
           && fresh(t)
           && tenants == old(tenants)[code := t]
           && builds == old(builds) + 1
           && t.lastAccessed == now
           && t.services.Some?
           && t.services.value.serial == old(builds)
           && t.services.value.descriptors == TenantDescriptors(initializers, code)
           && var starts := StartupEvents(t.services.value.HostedServices());
              && trace == old(trace) + ie + [Built(old(builds))] + UntilFault(starts, faults)
              && if Faultless(starts, faults) then
                   r == Success(t) && t.state == TenantState.Running
                 else
                   // A start hook threw: the tenant stays registered, still Starting.
                   r.Failure? && r.error in faults && t.state == TenantState.Starting
    }

    /**
     * `GetOrStartTenantAsync`: a registered tenant is returned with
     * `lastAccessed` set to `now` and nothing else changed; otherwise the
     * creation path runs.
     */
    method GetOrStartTenant(code: string, now: int, faults: set<Event>) returns (r: Result<TenantContext, Event>)
      requires Valid()
      modifies this`tenants, this`builds, this`trace, (if code in tenants then {tenants[code]} else {})`lastAccessed
      ensures Valid()
      ensures r.Success? ==> code in tenants && tenants[code] == r.value && r.value.services.Some?
      ensures code in old(tenants) ==>
                r == Success(old(tenants)[code]) && r.value.lastAccessed == now
                && r.value.state == old(r.value.state)
                && tenants == old(tenants) && builds == old(builds) && trace == old(trace)
      ensures code !in old(tenants) ==> Created(code, now, faults, r)
      ensures code !in old(tenants) && code in tenants ==>
                fresh(tenants[code].services.value.requestDelegates)
                && tenants[code].services.value.requestDelegates.delegates == map[]
    {
      if code !in tenants {
        r := Initialize(code, now, faults);
        return;
      }
      var tenant := tenants[code];
      tenant.lastAccessed := now;
      r := Success(tenant);
    }

    /**
     * `StopAsync`: an unknown code is a no-op. Otherwise the entry is removed
     * first, the tenant goes to Stopping, the three stop phases run in start
     * order, the tenant goes to Stopped and its container is disposed
     * (asynchronously: a built `ServiceProvider` is `IAsyncDisposable`). There
     * is no try/catch: a throwing hook ends the stop with the tenant
     * unregistered, left Stopping, and its container not disposed.
     */
    method Stop(code: string, faults: set<Event>) returns (thrown: Option<Event>)
      requires Valid()
      modifies this`tenants, this`trace, (if code in tenants then {tenants[code]} else {})`state
      ensures Valid()
      ensures code !in old(tenants) ==> thrown == None && tenants == old(tenants) && trace == old(trace)
      ensures code in old(tenants) ==>
                var t := old(tenants)[code];
                var container := old(t.services.value);
                var stops := ShutdownEvents(container.HostedServices());
                && tenants == old(tenants) - {code}
                && (thrown.None? <==> Faultless(stops, faults))
                && (thrown.Some? ==> thrown.value in faults)
                && t.state == (if thrown.None? then TenantState.Stopped else TenantState.Stopping)
                && trace == old(trace) + StopTrace(container, faults)
    {
      if code !in tenants {
        return None;
      }
      var tenant := tenants[code];
      tenants := tenants - {code};
      tenant.state := TenantState.Stopping;
      var container := tenant.services.value;
      thrown := RunPhases(Phase.Stopping, Phase.Stop, Phase.Stopped, container.HostedServices(), faults);
      if thrown.Some? {
        return;
      }
      tenant.state := TenantState.Stopped;
      trace := trace + [Disposed(container.serial, true)];
    }
  }
}

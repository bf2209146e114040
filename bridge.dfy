/**
 * `TenantContextServiceProvider`: the provider a tenant request sees. It asks
 * the tenant's container first and the host's container second, and
 * announces (once per type, process-wide) a type that only the host had.
 */
module ResolutionBridge {
  import opened Wrappers
  import opened ServiceModel
  import Options

  /**
   * A type the options let through to the host's request scope: the type
   * itself is in `RedirectScopeTypes`, or it is generic and its generic
   * definition is.
   */
  predicate IsRedirected(redirect: set<TypeRef>, t: TypeRef): (b: bool)
    // A non-generic type only through itself.
    ensures t.Named? ==> (b <==> t in redirect)
    // A constructed generic type through itself or through its definition, whatever its arguments.
    ensures t.Constructed? ==> (b <==> t in redirect || Definition(t.definition, |t.arguments|) in redirect)
    // A generic type definition only through itself.
    ensures t.Definition? ==> (b <==> t in redirect)
  {
    t in redirect || (t.IsGeneric() && t.GenericDefinition() in redirect)
  }

  /** The outcome of one `GetService` call: what it returns and whether it logs the fallback notice. */
  datatype Lookup = Lookup(service: Option<Impl>, noticed: bool)

  /**
   * One `GetService(t)`, given the two containers' registrations, the
   * options in force and the types already announced.
   */
  function Decide(tenant: seq<Descriptor>, host: seq<Descriptor>, redirect: set<TypeRef>, allowFallback: bool,
                  notified: set<TypeRef>, t: TypeRef): (r: Lookup)
    // A type the tenant's container can produce is served by the tenant,
    // with no notice: its own registrations, its open generic ones, and
    // every `IEnumerable<T>`.
    ensures CanResolve(tenant, t) ==> r == Lookup(GetService(tenant, t), false) && r.service.Some?
    // Otherwise the host serves it, whatever the fallback flag and the
    // redirect set say; those only decide the notice.
    ensures !CanResolve(tenant, t) ==> r.service == GetService(host, t)
    // The notice is given exactly for a type the tenant lacks, that is not
    // redirected, when fallback is allowed, the first time.
    ensures r.noticed <==> !CanResolve(tenant, t) && !IsRedirected(redirect, t) && allowFallback && t !in notified
  {
    var own := GetService(tenant, t);
    if own.Some? then Lookup(own, false)
    else if IsRedirected(redirect, t) then Lookup(GetService(host, t), false)
    else if allowFallback then Lookup(GetService(host, t), t !in notified)
    else Lookup(GetService(host, t), false)
  }

  /**
   * The tenant's own `IServiceProvider`, `IServiceScopeFactory` and
   * `IServiceProviderIsService` are what a tenant request gets: its
   * container produces them, so the host is never asked and nothing is
   * announced, whatever the options and the host hold.
   */
  lemma BuiltInsFromTenant(tenant: seq<Descriptor>, host: seq<Descriptor>, redirect: set<TypeRef>, allowFallback: bool,
                           notified: set<TypeRef>, t: TypeRef)
    requires IsBuiltIn(t)
    ensures Decide(tenant, host, redirect, allowFallback, notified, t) == Lookup(Some(BuiltIn(t)), false)
  {
  }

  /** The types announced by the time a lookup has been decided. */
  function NotifiedAfter(notified: set<TypeRef>, l: Lookup, t: TypeRef): set<TypeRef>
  {
    if l.noticed then notified + {t} else notified
  }

  /**
   * One call of a sequence: the tenant container asked, the options in
   * force, the host container and the type requested. Calls may come from
   * any tenant and any bridge instance.
   */
  datatype Request = Request(tenant: seq<Descriptor>, host: seq<Descriptor>, redirect: set<TypeRef>,
                             allowFallback: bool, serviceType: TypeRef)

  /** The decision for one request against the process-wide set. */
  function DecideRequest(notified: set<TypeRef>, q: Request): Lookup
  {
    Decide(q.tenant, q.host, q.redirect, q.allowFallback, notified, q.serviceType)
  }

  /** The types announced by a sequence of calls, in order, starting from `notified`. */
  function Notices(notified: set<TypeRef>, reqs: seq<Request>): seq<TypeRef>
    decreases |reqs|
  {
    if |reqs| == 0 then []
    else
      var l := DecideRequest(notified, reqs[0]);
      (if l.noticed then [reqs[0].serviceType] else [])
        + Notices(NotifiedAfter(notified, l, reqs[0].serviceType), reqs[1..])
  }

  /**
   * Because the set is static and keyed by type alone, a sequence of calls
   * from any tenants announces each type at most once, and never one that
   * was announced before it began.
   */
  lemma {:induction false} NoticedAtMostOnce(notified: set<TypeRef>, reqs: seq<Request>)
    ensures forall i :: 0 <= i < |Notices(notified, reqs)| ==> Notices(notified, reqs)[i] !in notified
    ensures forall i, j :: 0 <= i < j < |Notices(notified, reqs)| ==>
              Notices(notified, reqs)[i] != Notices(notified, reqs)[j]
    decreases |reqs|
  {
    if |reqs| > 0 {
      var t := reqs[0].serviceType;
      var l := DecideRequest(notified, reqs[0]);
      var next := NotifiedAfter(notified, l, t);
      NoticedAtMostOnce(next, reqs[1..]);
      var rest := Notices(next, reqs[1..]);
      assert Notices(notified, reqs) == (if l.noticed then [t] else []) + rest;
      if l.noticed {
        assert t !in notified;
        assert forall i :: 0 <= i < |rest| ==> rest[i] != t;
      }
    }
  }

  /**
   * The process-wide `NotifiedTypes` dictionary (a `ConcurrentDictionary`
   * used as a set): shared by every bridge of every tenant.
   */
  class NotifiedTypes {
    var types: set<TypeRef>

    constructor ()
      ensures types == {}
    {
      types := {};
    }

    /** `TryAdd(t, true)`: true only for the call that inserts `t`. */
    method TryAdd(t: TypeRef) returns (added: bool)
      modifies this
      ensures types == old(types) + {t}
      ensures added <==> t !in old(types)
    {
      added := t !in types;
      types := types + {t};
    }
  }

  class TenantContextServiceProvider {
    /** The tenant's request-scoped provider. */
    const tenantServices: seq<Descriptor>
    /** The host's request-scoped provider. */
    const hostServices: seq<Descriptor>
    /** `IOptions<TenantOptions>.Value`, as the host provider hands it out. */
    const options: Options.TenantOptions
    const notified: NotifiedTypes

    constructor (tenantServices: seq<Descriptor>, hostServices: seq<Descriptor>, options: Options.TenantOptions,
                 notified: NotifiedTypes)
      ensures this.tenantServices == tenantServices && this.hostServices == hostServices
      ensures this.options == options && this.notified == notified
    {
      this.tenantServices := tenantServices;
      this.hostServices := hostServices;
      this.options := options;
      this.notified := notified;
    }

    /**
     * `GetService(t)`: the tenant's instance if it has one; otherwise the
     * host's, after the redirect test and, for a fallback, the first-time
     * notice. `noticed` says whether the notice was logged.
     */
    method GetService(t: TypeRef) returns (service: Option<Impl>, noticed: bool)
      modifies notified
      ensures Lookup(service, noticed) ==
                Decide(tenantServices, hostServices, options.redirectScopeTypes,
                       options.allowFallbackToHostServiceProvider, old(notified.types), t)
      ensures notified.types == NotifiedAfter(old(notified.types), Lookup(service, noticed), t)
    {
      service := ServiceModel.GetService(tenantServices, t);
      noticed := false;
      if service.Some? {
        return;
      }
      if IsRedirected(options.redirectScopeTypes, t) {
        // Redirected to the host's scope on purpose: no notice.
      } else if options.allowFallbackToHostServiceProvider {
        noticed := notified.TryAdd(t);
      }
      service := ServiceModel.GetService(hostServices, t);
    }
  }
}

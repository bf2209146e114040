/**
 * `TenantApplication`: the application builder tenant configuration code
 * registers middleware on. Components are kept in order and composed in
 * reverse; `Build` wraps them in routing, authentication, authorization and
 * endpoint stages, using marker entries of the property bag to avoid adding
 * a stage twice.
 */
module Builder {
  import opened Wrappers
  import opened ServiceModel
  import opened RequestPipeline
  import opened Collections

  const GlobalEndpointRouteBuilderKey := "__GlobalEndpointRouteBuilder"
  const EndpointRouteBuilderKey := "__EndpointRouteBuilder"
  const AuthenticationMiddlewareSetKey := "__AuthenticationMiddlewareSet"
  const AuthorizationMiddlewareSetKey := "__AuthorizationMiddlewareSet"
  const UseRoutingKey := "__UseRouting"

  /** A value of the property bag. */
  datatype Property =
    | Application(app: TenantApplication)       // a builder acting as the endpoint route builder
    | DefaultRouteBuilder(owner: TenantApplication) // the route builder UseRouting makes when none is global
    | Flag(value: bool)                         // the middleware-set markers
    | UseRoutingFunction                        // the callback UseRouting leaves for re-routing middleware
    | Other(id: nat)                            // anything else user code stores

  datatype BuildError = NotSupported

  type Bag = map<string, Property>

  /** Routing is inserted when there are endpoints and nobody called UseRouting on the parent. */
  predicate AddsRouting(hasDataSources: bool, bag: Bag)
  {
    hasDataSources && EndpointRouteBuilderKey !in bag
  }

  /** Authentication is inserted when its services exist and no builder sharing the bag inserted it. */
  predicate AddsAuthentication(services: seq<Descriptor>, bag: Bag)
  {
    IsService(services, AuthenticationSchemeProviderType) && AuthenticationMiddlewareSetKey !in bag
  }

  predicate AddsAuthorization(services: seq<Descriptor>, bag: Bag)
  {
    IsService(services, AuthorizationHandlerProviderType) && AuthorizationMiddlewareSetKey !in bag
  }

  /** A stage present only when `b` holds. */
  function StageIf(b: bool, l: StageLabel): seq<Component>
  {
    if b then [Middleware(l)] else []
  }

  /** The components of the child builder `Build` compiles, for the parent's state. */
  function Planned(hasDataSources: bool, services: seq<Descriptor>, bag: Bag, components: seq<Component>): seq<Component>
  {
    StageIf(AddsRouting(hasDataSources, bag), Routing)
    + StageIf(AddsAuthentication(services, bag), Authentication)
    + StageIf(AddsAuthorization(services, bag), Authorization)
    + [Composed(components)]
    + StageIf(hasDataSources, Endpoints)
  }

  /** The parent's bag after the routing step of `Build`. */
  function MarkedRouting(hasDataSources: bool, bag: Bag): Bag
  {
    if AddsRouting(hasDataSources, bag) then bag[UseRoutingKey := UseRoutingFunction] else bag
  }

  /** The parent's bag after the authentication and authorization steps of `Build`. */
  function MarkedAuth(services: seq<Descriptor>, bag: Bag): Bag
  {
    var b := if AddsAuthentication(services, bag) then bag[AuthenticationMiddlewareSetKey := Flag(true)] else bag;
    if AddsAuthorization(services, bag) then b[AuthorizationMiddlewareSetKey := Flag(true)] else b
  }

  /** The parent's bag after `Build`: the markers of the stages it inserted are set. */
  function Marked(hasDataSources: bool, services: seq<Descriptor>, bag: Bag): (r: Bag)
    // Neither stage will be inserted again by a later `Build` over this bag.
    ensures !AddsAuthentication(services, r) && !AddsAuthorization(services, r)
    // Only the three marker keys change, and none is removed.
    ensures bag.Keys <= r.Keys
    ensures forall k :: k in r && k !in {UseRoutingKey, AuthenticationMiddlewareSetKey, AuthorizationMiddlewareSetKey} ==>
                          k in bag && r[k] == bag[k]
  {
    MarkedAuth(services, MarkedRouting(hasDataSources, bag))
  }

  /** The label of a stage present only when `b` holds. */
  function LabelIf(b: bool, l: StageLabel): seq<StageLabel>
  {
    if b then [l] else []
  }

  lemma StageIfLabels(b: bool, l: StageLabel)
    ensures Labels(StageIf(b, l)) == LabelIf(b, l)
  {
    if b {
      assert StageIf(b, l)[1..] == [];
    }
  }

  /**
   * The pipeline `Build` compiles runs, in order: routing (only with data
   * sources and no earlier UseRouting), authentication, authorization (each
   * only if its services exist and it was not inserted before), the user
   * components in registration order, endpoints (only with data sources),
   * and then `next`.
   */
  lemma PlannedLayers(hasDataSources: bool, services: seq<Descriptor>, bag: Bag, components: seq<Component>,
                      next: RequestDelegate)
    ensures Layers(Compose(Planned(hasDataSources, services, bag, components), next)) ==
              LabelIf(AddsRouting(hasDataSources, bag), Routing)
              + LabelIf(AddsAuthentication(services, bag), Authentication)
              + LabelIf(AddsAuthorization(services, bag), Authorization)
              + Labels(components)
              + LabelIf(hasDataSources, Endpoints)
              + Layers(next)
    ensures Terminus(Compose(Planned(hasDataSources, services, bag, components), next)) == Terminus(next)
  {
    var r := StageIf(AddsRouting(hasDataSources, bag), Routing);
    var a := StageIf(AddsAuthentication(services, bag), Authentication);
    var z := StageIf(AddsAuthorization(services, bag), Authorization);
    var u := [Composed(components)];
    var e := StageIf(hasDataSources, Endpoints);
    ComposeLayers(r + a + z + u + e, next);
    LabelsConcat(r + a + z + u, e);
    LabelsConcat(r + a + z, u);
    LabelsConcat(r + a, z);
    LabelsConcat(r, a);
    StageIfLabels(AddsRouting(hasDataSources, bag), Routing);
    StageIfLabels(AddsAuthentication(services, bag), Authentication);
    StageIfLabels(AddsAuthorization(services, bag), Authorization);
    StageIfLabels(hasDataSources, Endpoints);
    assert u[1..] == [];
  }

  class TenantApplication {
    const tenantCode: string
    const properties: PropertyBag<Property>
    /** `TenantServices`, which `ApplicationServices` also sets. */
    var tenantServices: seq<Descriptor>
    const hostServices: seq<Descriptor>
    /** The server's feature collection, opaque here. */
    const serverFeatures: nat
    var components: seq<Component>
    /** `IEndpointRouteBuilder.DataSources`, opaque ids. */
    var dataSources: seq<nat>

    ghost predicate Valid()
      reads properties, properties.footprint
    {
      properties.Valid()
    }

    /** The root builder: a plain bag in which the builder is its own global route builder. */
    constructor (tenantServiceProvider: seq<Descriptor>, serverFeatures: nat, tenant: string, hostServices: seq<Descriptor>)
      ensures Valid() && fresh(properties.footprint)
      ensures properties.Contents() == map[GlobalEndpointRouteBuilderKey := Application(this)]
      ensures tenantCode == tenant && tenantServices == tenantServiceProvider
      ensures this.hostServices == hostServices && this.serverFeatures == serverFeatures
      ensures components == [] && dataSources == []
    {
      tenantCode := tenant;
      properties := new PropertyBag<Property>.Plain(map[]);
      tenantServices := tenantServiceProvider;
      this.hostServices := hostServices;
      this.serverFeatures := serverFeatures;
      components := [];
      dataSources := [];
      new;
      properties.Set(GlobalEndpointRouteBuilderKey, Application(this));
    }

    /**
     * The copy constructor: same code, containers and features, a
     * copy-on-write bag over the parent's, no components and no data sources.
     */
    constructor Copy(builder: TenantApplication)
      requires builder.Valid()
      ensures Valid() && fresh(properties)
      ensures properties.source == Some(builder.properties)
      ensures properties.footprint == {properties} + builder.properties.footprint
      ensures properties.Contents() == builder.properties.Contents()
      ensures tenantCode == builder.tenantCode && tenantServices == builder.tenantServices
      ensures hostServices == builder.hostServices && serverFeatures == builder.serverFeatures
      ensures components == [] && dataSources == []
    {
      tenantCode := builder.tenantCode;
      properties := new PropertyBag<Property>.CopyOnWrite(builder.properties);
      tenantServices := builder.tenantServices;
      hostServices := builder.hostServices;
      serverFeatures := builder.serverFeatures;
      components := [];
      dataSources := [];
    }

    /** `Use`: one component at the end; the same builder is returned. */
    method Use(middleware: Component) returns (self: TenantApplication)
      modifies this`components
      ensures self == this
      ensures components == old(components) + [middleware]
    {
      components := components + [middleware];
      self := this;
    }

    /** `New()`: a child builder over this one. */
    method New() returns (app: TenantApplication)
      requires Valid()
      ensures fresh(app) && app.Valid() && fresh(app.properties)
      ensures app.properties.source == Some(properties)
      ensures app.tenantCode == tenantCode && app.tenantServices == tenantServices
      ensures app.hostServices == hostServices && app.serverFeatures == serverFeatures
      ensures app.components == [] && app.dataSources == []
    {
      app := new TenantApplication.Copy(this);
    }

    /** `IEndpointRouteBuilder.DataSources.Add` */
    method AddDataSource(source: nat)
      modifies this`dataSources
      ensures dataSources == old(dataSources) + [source]
    {
      dataSources := dataSources + [source];
    }

    /** The `ApplicationServices` setter. */
    method SetApplicationServices(services: seq<Descriptor>)
      modifies this`tenantServices
      ensures tenantServices == services
    {
      tenantServices := services;
    }

    /** The parameterless `IApplicationBuilder.Build()` is not supported. */
    method BuildWithoutNext() returns (r: Result<RequestDelegate, BuildError>)
      ensures r == Failure(NotSupported)
    {
      r := Failure(NotSupported);
    }

    /** `BuildInternal`: the components applied from the last to the first. */
    method BuildInternal(next: RequestDelegate) returns (app: RequestDelegate)
      ensures app == Compose(components, next)
    {
      app := next;
      var c := |components|;
      while c > 0
        invariant 0 <= c <= |components|
        invariant app == Compose(components[c..], next)
      {
        c := c - 1;
        assert components[c..][1..] == components[c + 1..];
        app := Apply(components[c], app);
      }
      assert components[0..] == components;
    }

    /**
     * `UseRouting()` (ASP.NET Core): the global route builder, or a new
     * default one, becomes the endpoint route builder, the re-routing
     * callback is stored, and the routing stage is added.
     */
    method UseRouting()
      requires Valid()
      modifies this`components, properties`inner
      ensures Valid() && properties.inner.Some?
      ensures components == old(components) + [Middleware(Routing)]
      ensures properties.Contents() ==
                old(properties.Contents())
                  [EndpointRouteBuilderKey :=
                     if GlobalEndpointRouteBuilderKey in old(properties.Contents())
                     then old(properties.Contents())[GlobalEndpointRouteBuilderKey]
                     else DefaultRouteBuilder(this)]
                  [UseRoutingKey := UseRoutingFunction]
    {
      var global := properties.TryGetValue(GlobalEndpointRouteBuilderKey);
      var routeBuilder := if global.Some? then global.value else DefaultRouteBuilder(this);
      properties.Set(EndpointRouteBuilderKey, routeBuilder);
      properties.Set(UseRoutingKey, UseRoutingFunction);
      components := components + [Middleware(Routing)];
    }

    /** `UseAuthentication()` (ASP.NET Core): marks this builder's bag and adds the stage. */
    method UseAuthentication()
      requires Valid()
      modifies this`components, properties`inner
      ensures Valid() && properties.inner.Some?
      ensures components == old(components) + [Middleware(Authentication)]
      ensures properties.Contents() == old(properties.Contents())[AuthenticationMiddlewareSetKey := Flag(true)]
    {
      properties.Set(AuthenticationMiddlewareSetKey, Flag(true));
      components := components + [Middleware(Authentication)];
    }

    /** `UseAuthorization()` (ASP.NET Core): marks this builder's bag and adds the stage. */
    method UseAuthorization()
      requires Valid()
      modifies this`components, properties`inner
      ensures Valid() && properties.inner.Some?
      ensures components == old(components) + [Middleware(Authorization)]
      ensures properties.Contents() == old(properties.Contents())[AuthorizationMiddlewareSetKey := Flag(true)]
    {
      properties.Set(AuthorizationMiddlewareSetKey, Flag(true));
      components := components + [Middleware(Authorization)];
    }

    /**
     * `UseEndpoints(_ => { })` (ASP.NET Core), which insists that routing was
     * set up on this builder first.
     */
    method UseEndpoints()
      requires Valid()
      requires EndpointRouteBuilderKey in properties.Contents()
      modifies this`components
      ensures components == old(components) + [Middleware(Endpoints)]
    {
      components := components + [Middleware(Endpoints)];
    }

    /**
     * `Build(next)`: a child builder gets the routing, authentication and
     * authorization stages this builder calls for, then this builder's
     * components as one component, then the endpoints stage; the child is
     * compiled in front of `next`. This builder's bag records the stages
     * inserted.
     */
    method Build(next: RequestDelegate) returns (d: RequestDelegate)
      requires Valid()
      modifies properties`inner
      ensures Valid()
      ensures d == Compose(Planned(|dataSources| > 0, tenantServices, old(properties.Contents()), components), next)
      ensures properties.Contents() == Marked(|dataSources| > 0, tenantServices, old(properties.Contents()))
    {
      var app := Prepare();
      d := app.BuildInternal(next);
    }

    /**
     * The body of `Build` up to the final compile: the child builder, its
     * components, and the bags of both.
     */
    method Prepare() returns (app: TenantApplication)
      requires Valid()
      modifies properties`inner
      ensures Valid()
      ensures app.components == Planned(|dataSources| > 0, tenantServices, old(properties.Contents()), components)
      ensures properties.Contents() == Marked(|dataSources| > 0, tenantServices, old(properties.Contents()))
      ensures app.Valid()
      // The global route builder entry is only there while the stages are added.
      ensures GlobalEndpointRouteBuilderKey !in app.properties.Contents()
      // A route builder the parent had is restored in the child.
      ensures EndpointRouteBuilderKey in old(properties.Contents()) ==>
                EndpointRouteBuilderKey in app.properties.Contents()
                && app.properties.Contents()[EndpointRouteBuilderKey] == old(properties.Contents())[EndpointRouteBuilderKey]
    {
      var priorRouteBuilder;
      app, priorRouteBuilder := NewChild();
      AddStages(app);
      Finish(app, priorRouteBuilder);
    }

    /** The routing, authentication and authorization steps of `Build`, in that order. */
    method AddStages(app: TenantApplication)
      requires Child(app) && app.components == []
      modifies properties`inner, app`components, app.properties`inner
      ensures Child(app)
      ensures app.components == StageIf(AddsRouting(|dataSources| > 0, old(properties.Contents())), Routing)
                                + StageIf(AddsAuthentication(tenantServices, old(properties.Contents())), Authentication)
                                + StageIf(AddsAuthorization(tenantServices, old(properties.Contents())), Authorization)
      ensures properties.Contents() == Marked(|dataSources| > 0, tenantServices, old(properties.Contents()))
      ensures |dataSources| > 0 ==> EndpointRouteBuilderKey in app.properties.Contents()
      ensures forall k :: k in old(app.properties.Contents()) && k != EndpointRouteBuilderKey && k != UseRoutingKey
                            && k != AuthenticationMiddlewareSetKey && k != AuthorizationMiddlewareSetKey ==>
                            k in app.properties.Contents() && app.properties.Contents()[k] == old(app.properties.Contents())[k]
      ensures forall k :: k in app.properties.Contents() && k != EndpointRouteBuilderKey && k != UseRoutingKey
                            && k != AuthenticationMiddlewareSetKey && k != AuthorizationMiddlewareSetKey ==>
                            k in old(app.properties.Contents())
    {
      ghost var bag := properties.Contents();
      AddRoutingStage(app);
      ghost var routed := properties.Contents();
      assert AddsAuthentication(tenantServices, routed) == AddsAuthentication(tenantServices, bag);
      assert AddsAuthorization(tenantServices, routed) == AddsAuthorization(tenantServices, bag);
      AddAuthentication(app);
      AddAuthorization(app);
    }

    /**
     * The start of `Build`: the child builder, with any route builder
     * inherited from this builder removed (and returned) and this builder
     * set as the global route builder.
     */
    method NewChild() returns (app: TenantApplication, priorRouteBuilder: Option<Property>)
      requires Valid()
      ensures fresh(app) && fresh(app.properties) && Child(app)
      ensures app.components == [] && app.dataSources == []
      ensures properties.Contents() == old(properties.Contents())
      ensures app.properties.Contents() ==
                (old(properties.Contents()) - {EndpointRouteBuilderKey})[GlobalEndpointRouteBuilderKey := Application(this)]
      ensures priorRouteBuilder.Some? <==> EndpointRouteBuilderKey in old(properties.Contents())
      ensures priorRouteBuilder.Some? ==> priorRouteBuilder.value == old(properties.Contents())[EndpointRouteBuilderKey]
    {
      app := new TenantApplication.Copy(this);
      priorRouteBuilder := app.properties.Remove(EndpointRouteBuilderKey);
      app.properties.Set(GlobalEndpointRouteBuilderKey, Application(this));
    }

    /**
     * The end of `Build` before the compile: this builder's components as
     * one component, the endpoints stage with data sources, the global route
     * builder entry removed and any inherited route builder restored.
     */
    method Finish(app: TenantApplication, priorRouteBuilder: Option<Property>)
      requires Child(app)
      requires |dataSources| > 0 ==> EndpointRouteBuilderKey in app.properties.Contents()
      modifies app`components, app.properties`inner
      ensures Child(app)
      ensures app.components == old(app.components) + [Composed(components)] + StageIf(|dataSources| > 0, Endpoints)
      ensures app.properties.Contents() ==
                if priorRouteBuilder.Some?
                then (old(app.properties.Contents()) - {GlobalEndpointRouteBuilderKey})[EndpointRouteBuilderKey := priorRouteBuilder.value]
                else old(app.properties.Contents()) - {GlobalEndpointRouteBuilderKey}
    {
      var _ := app.Use(Composed(components));
      if |dataSources| > 0 {
        app.UseEndpoints();
      }
      var _ := app.properties.Remove(GlobalEndpointRouteBuilderKey);
      if priorRouteBuilder.Some? {
        app.properties.Set(EndpointRouteBuilderKey, priorRouteBuilder.value);
      }
    }

    /** `app` is the child `Build` works on: its bag has its own entries and reads through this builder's. */
    ghost predicate Child(app: TenantApplication)
      reads this, properties, properties.footprint, app, app.properties, app.properties.footprint
    {
      && Valid() && app.Valid() && app != this
      && app.tenantServices == tenantServices
      && app.properties.source == Some(properties)
      && app.properties.inner.Some?
      && app.properties !in properties.footprint
    }

    /**
     * The routing step of `Build`: with data sources, either routing is added
     * to the child (and the re-routing callback copied into this builder's
     * bag) or this builder's route builder is handed to the child.
     */
    method AddRoutingStage(app: TenantApplication)
      requires Child(app)
      modifies properties`inner, app`components, app.properties`inner
      ensures Child(app)
      ensures app.components == old(app.components) + StageIf(AddsRouting(|dataSources| > 0, old(properties.Contents())), Routing)
      ensures properties.Contents() == MarkedRouting(|dataSources| > 0, old(properties.Contents()))
      ensures |dataSources| > 0 ==> EndpointRouteBuilderKey in app.properties.Contents()
      ensures forall k :: k in old(app.properties.Contents()) && k != EndpointRouteBuilderKey && k != UseRoutingKey ==>
                            k in app.properties.Contents() && app.properties.Contents()[k] == old(app.properties.Contents())[k]
      ensures forall k :: k in app.properties.Contents() && k != EndpointRouteBuilderKey && k != UseRoutingKey ==>
                            k in old(app.properties.Contents())
    {
      if |dataSources| > 0 {
        var localRouteBuilder := properties.TryGetValue(EndpointRouteBuilderKey);
        if localRouteBuilder.None? {
          app.UseRouting();
          var useRouting := app.properties.TryGetValue(UseRoutingKey);
          properties.Set(UseRoutingKey, useRouting.value);
        } else {
          app.properties.Set(EndpointRouteBuilderKey, localRouteBuilder.value);
        }
      }
    }

    /**
     * The authentication step of `Build`: the stage is added to the child
     * only if its services exist and this builder's bag lacks the marker,
     * which is then set in this builder's bag too.
     */
    method AddAuthentication(app: TenantApplication)
      requires Child(app)
      modifies properties`inner, app`components, app.properties`inner
      ensures Child(app)
      ensures app.components == old(app.components) + StageIf(AddsAuthentication(tenantServices, old(properties.Contents())), Authentication)
      ensures properties.Contents() ==
                if AddsAuthentication(tenantServices, old(properties.Contents()))
                then old(properties.Contents())[AuthenticationMiddlewareSetKey := Flag(true)]
                else old(properties.Contents())
      ensures app.properties.Contents() ==
                if AddsAuthentication(tenantServices, old(properties.Contents()))
                then old(app.properties.Contents())[AuthenticationMiddlewareSetKey := Flag(true)]
                else old(app.properties.Contents())
    {
      if IsService(tenantServices, AuthenticationSchemeProviderType) {
        var authenticationSet := properties.TryGetValue(AuthenticationMiddlewareSetKey);
        if authenticationSet.None? {
          properties.Set(AuthenticationMiddlewareSetKey, Flag(true));
          app.UseAuthentication();
        }
      }
    }

    /** The authorization step of `Build`, alike. */
    method AddAuthorization(app: TenantApplication)
      requires Child(app)
      modifies properties`inner, app`components, app.properties`inner
      ensures Child(app)
      ensures app.components == old(app.components) + StageIf(AddsAuthorization(tenantServices, old(properties.Contents())), Authorization)
      ensures properties.Contents() ==
                if AddsAuthorization(tenantServices, old(properties.Contents()))
                then old(properties.Contents())[AuthorizationMiddlewareSetKey := Flag(true)]
                else old(properties.Contents())
      ensures app.properties.Contents() ==
                if AddsAuthorization(tenantServices, old(properties.Contents()))
                then old(app.properties.Contents())[AuthorizationMiddlewareSetKey := Flag(true)]
                else old(app.properties.Contents())
    {
      if IsService(tenantServices, AuthorizationHandlerProviderType) {
        var authorizationSet := properties.TryGetValue(AuthorizationMiddlewareSetKey);
        if authorizationSet.None? {
          properties.Set(AuthorizationMiddlewareSetKey, Flag(true));
          app.UseAuthorization();
        }
      }
    }
  }
}

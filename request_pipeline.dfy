/**
 * Request delegates and pipeline components, as values.
 *
 * A `RequestDelegate` of ASP.NET Core is modelled by the chain of stages it
 * runs before reaching a terminal delegate; a component registered with `Use`
 * (a `Func<RequestDelegate, RequestDelegate>`) is modelled by the stage it
 * wraps around its argument.
 */
module RequestPipeline {

  /** What one stage of a compiled pipeline does. */
  datatype StageLabel =
    | Routing                 // UseRouting()
    | Authentication          // UseAuthentication()
    | Authorization           // UseAuthorization()
    | Endpoints               // UseEndpoints(_ => { })
    | UserMiddleware(id: nat) // a component registered by tenant configuration code
    | RestoreHostServices     // the terminal step UseMultiTenant puts before the outer `next`

  /** A compiled request delegate: stages, outermost first, ending in a terminal delegate. */
  datatype RequestDelegate =
    | Terminal(id: nat)
    | Stage(kind: StageLabel, inner: RequestDelegate)

  /**
   * A component: either one stage, or the whole component list of another
   * builder, which is what `app.Use(BuildInternal)` registers.
   */
  datatype Component =
    | Middleware(stage: StageLabel)
    | Composed(components: seq<Component>)

  /** Invoking a component on the delegate that follows it. */
  function Apply(c: Component, next: RequestDelegate): RequestDelegate
    decreases c, 1
  {
    match c
    case Middleware(l) => Stage(l, next)
    case Composed(cs) => Compose(cs, next)
  }

  /** c0(c1(...cn-1(next))): the first component is outermost. */
  function Compose(cs: seq<Component>, next: RequestDelegate): RequestDelegate
    decreases cs, 0
  {
    if |cs| == 0 then next else Apply(cs[0], Compose(cs[1..], next))
  }

  /** The stages a delegate runs, in order, before its terminal delegate. */
  function Layers(d: RequestDelegate): seq<StageLabel>
  {
    match d
    case Terminal(_) => []
    case Stage(l, n) => [l] + Layers(n)
  }

  /** The terminal delegate a delegate ends in. */
  function Terminus(d: RequestDelegate): nat
  {
    match d
    case Terminal(id) => id
    case Stage(_, n) => Terminus(n)
  }

  /** The stages a component contributes, in order. */
  function ComponentLabels(c: Component): seq<StageLabel>
    decreases c, 1
  {
    match c
    case Middleware(l) => [l]
    case Composed(cs) => Labels(cs)
  }

  /** The stages a component list contributes, in registration order. */
  function Labels(cs: seq<Component>): seq<StageLabel>
    decreases cs, 0
  {
    if |cs| == 0 then [] else ComponentLabels(cs[0]) + Labels(cs[1..])
  }

  /** Applying a component puts its stages in front of `next` and keeps `next`'s terminal. */
  lemma {:induction false} ApplyLayers(c: Component, next: RequestDelegate)
    ensures Layers(Apply(c, next)) == ComponentLabels(c) + Layers(next)
    ensures Terminus(Apply(c, next)) == Terminus(next)
    decreases c, 1
  {
    match c
    case Middleware(l) =>
    case Composed(cs) => ComposeLayers(cs, next);
  }

  /**
   * Composing a component list runs the components' stages in registration
   * order (the first-registered outermost), then everything `next` runs.
   */
  lemma {:induction false} ComposeLayers(cs: seq<Component>, next: RequestDelegate)
    ensures Layers(Compose(cs, next)) == Labels(cs) + Layers(next)
    ensures Terminus(Compose(cs, next)) == Terminus(next)
    decreases cs, 0
  {
    if |cs| > 0 {
      ComposeLayers(cs[1..], next);
      ApplyLayers(cs[0], Compose(cs[1..], next));
    }
  }

  /** The labels of two lists one after the other. */
  lemma {:induction false} LabelsConcat(cs: seq<Component>, ds: seq<Component>)
    ensures Labels(cs + ds) == Labels(cs) + Labels(ds)
  {
    if |cs| == 0 {
      assert cs + ds == ds;
    } else {
      assert (cs + ds)[1..] == cs[1..] + ds;
      LabelsConcat(cs[1..], ds);
    }
  }

  /**
   * The per-tenant cache of compiled delegates (the singleton
   * `TenantRequestDelegates`), keyed by the id of a `UseMultiTenant` call site.
   */
  class TenantRequestDelegates {
    var delegates: map<nat, RequestDelegate>

    constructor ()
      ensures delegates == map[]
    {
      delegates := map[];
    }
  }
}

/**
 * `TenantManagerHostedService`: the background loop that, once a minute,
 * stops every tenant left unaccessed for at least `StopInterval`.
 * Each pass of the loop is given as a `Tick`: the `DateTimeOffset.UtcNow`
 * it reads (as a tick count) and the calls that throw during it.
 * Cancellation is the end of the sequence of ticks.
 */
module IdleReaper {
  import opened Wrappers
  import opened ServiceModel
  import opened Options
  import opened Lifecycle
  import opened TenantInstance
  import opened TenantRegistry

  /** A zero or maximal interval switches eviction off (the loop keeps ticking). */
  predicate EvictionDisabled(interval: int)
  {
    interval == TimeSpanZero || interval == TimeSpanMaxValue
  }

  /** The eviction test: unaccessed for at least the interval. */
  predicate Idle(now: int, lastAccessed: int, interval: int)
  {
    now - lastAccessed >= interval
  }

  /** What a pass reads of one tenant: its code, its last access and its container. */
  datatype TenantView = TenantView(code: string, lastAccessed: int, services: Option<ServiceProvider>)

  /** The views of `ts`, in order. */
  ghost function Views(ts: seq<TenantContext>): (vs: seq<TenantView>)
    reads ts`lastAccessed, ts`services
    ensures |vs| == |ts|
    ensures forall i :: 0 <= i < |ts| ==> vs[i] == TenantView(ts[i].code, ts[i].lastAccessed, ts[i].services)
    decreases |ts|
  {
    if |ts| == 0 then []
    else
      var t := ts[|ts| - 1];
      Views(ts[..|ts| - 1]) + [TenantView(t.code, t.lastAccessed, t.services)]
  }

  /** The states of `ts`, in order. */
  ghost function States(ts: seq<TenantContext>): (ss: seq<TenantState>)
    reads ts`state
    ensures |ss| == |ts|
    ensures forall i :: 0 <= i < |ts| ==> ss[i] == ts[i].state
    decreases |ts|
  {
    if |ts| == 0 then [] else States(ts[..|ts| - 1]) + [ts[|ts| - 1].state]
  }

  /**
   * The states a pass leaves the snapshot's tenants in, from their states
   * `states0` before it: once `examined` tenants were looked at, each idle
   * one among them is Stopped, except the last when its stop threw (`error`),
   * which stays Stopping; every other tenant keeps its state.
   */
  function PassStates(states0: seq<TenantState>, vs: seq<TenantView>, examined: nat, error: Option<Event>, now: int, interval: int): (ss: seq<TenantState>)
    requires |states0| == |vs|
    ensures |ss| == |vs|
  {
    seq(|vs|, i requires 0 <= i < |vs| =>
      if examined <= i || !Idle(now, vs[i].lastAccessed, interval) then states0[i]
      else if error.Some? && i == examined - 1 then TenantState.Stopping
      else TenantState.Stopped)
  }

  /**
   * How far a pass got: `examined` of the tenants `vs` were looked at, and
   * if the pass failed (`error`), it was on the last of them, an idle one
   * whose stop threw.
   */
  predicate PassProgress(vs: seq<TenantView>, examined: nat, error: Option<Event>, now: int, interval: int, faults: set<Event>)
  {
    && examined <= |vs|
    && (error.Some? ==> examined > 0 && error.value in faults && Idle(now, vs[examined - 1].lastAccessed, interval))
  }

  /** Examining tenant `k` changes its state alone, to what the pass leaves it in. */
  lemma PassStatesStep(states0: seq<TenantState>, vs: seq<TenantView>, k: nat, thrown: Option<Event>, now: int, interval: int,
                       before: seq<TenantState>, after: seq<TenantState>)
    requires k < |states0| == |vs| == |after|
    requires before == PassStates(states0, vs, k, None, now, interval)
    requires forall i :: 0 <= i < |after| && i != k ==> after[i] == before[i]
    requires after[k] == if !Idle(now, vs[k].lastAccessed, interval) then before[k]
                         else if thrown.None? then TenantState.Stopped else TenantState.Stopping
    ensures after == PassStates(states0, vs, k + 1, thrown, now, interval)
  {
  }

  /** The codes of the idle tenants among the first `n` of `vs`. */
  function IdleCodes(vs: seq<TenantView>, n: nat, now: int, interval: int): set<string>
    requires n <= |vs|
  {
    if n == 0 then {}
    else IdleCodes(vs, n - 1, now, interval) + if Idle(now, vs[n - 1].lastAccessed, interval) then {vs[n - 1].code} else {}
  }

  /** A code is an idle code of the first `n` views iff an idle view among them carries it. */
  lemma {:induction false} IdleCodesMember(vs: seq<TenantView>, n: nat, now: int, interval: int, c: string)
    requires n <= |vs|
    ensures c in IdleCodes(vs, n, now, interval) <==>
              exists i :: 0 <= i < n && vs[i].code == c && Idle(now, vs[i].lastAccessed, interval)
  {
    if n > 0 {
      IdleCodesMember(vs, n - 1, now, interval, c);
    }
  }

  /** The calls the pass makes for one tenant: those of its stop if it is idle, else none. */
  function ReapStep(v: TenantView, now: int, interval: int, faults: set<Event>): seq<Event>
  {
    if Idle(now, v.lastAccessed, interval) && v.services.Some? then StopTrace(v.services.value, faults) else []
  }

  /** The calls a pass makes while it examines the first `n` tenants of `vs`, in order. */
  function ReapTrace(vs: seq<TenantView>, n: nat, now: int, interval: int, faults: set<Event>): seq<Event>
    requires n <= |vs|
  {
    if n == 0 then []
    else ReapTrace(vs, n - 1, now, interval, faults) + ReapStep(vs[n - 1], now, interval, faults)
  }

  /**
   * `ts` is a snapshot of the tenants registered in `m`, each once, and
   * `vs` carries their codes: the registry maps each code to the tenant
   * with that code.
   */
  ghost predicate Snapshotted(m: map<string, TenantContext>, ts: seq<TenantContext>, vs: seq<TenantView>)
  {
    && |ts| == |vs|
    && (forall c :: c in m ==> m[c].code == c)
    && (forall i :: 0 <= i < |ts| ==> ts[i] in m.Values && vs[i].code == ts[i].code)
    && (forall i, j :: 0 <= i < j < |ts| ==> ts[i] != ts[j])
  }

  /**
   * A tenant of the snapshot not yet examined is still registered under its
   * code: only the codes of examined tenants were removed, and no two
   * registered tenants share a code.
   */
  lemma UnexaminedStillRegistered(m: map<string, TenantContext>, ts: seq<TenantContext>, vs: seq<TenantView>, k: nat, now: int, interval: int)
    requires Snapshotted(m, ts, vs) && k < |ts|
    ensures ts[k].code in m - IdleCodes(vs, k, now, interval)
    ensures (m - IdleCodes(vs, k, now, interval))[ts[k].code] == ts[k]
  {
    var t := ts[k];
    forall i | 0 <= i < k
      ensures vs[i].code != t.code
    {
      CodeIdentifiesTenant(m, ts[i], t);
    }
    CodeIdentifiesTenant(m, t, t);
    IdleCodesMember(vs, k, now, interval, t.code);
  }

  /** In a registry keyed by tenant code, a registered tenant sits under its own code, and only there. */
  lemma CodeIdentifiesTenant(m: map<string, TenantContext>, a: TenantContext, b: TenantContext)
    requires forall c :: c in m ==> m[c].code == c
    requires a in m.Values && b in m.Values
    ensures a.code in m && m[a.code] == a
    ensures a.code == b.code ==> a == b
  {
    var ca :| ca in m && m[ca] == a;
    var cb :| cb in m && m[cb] == b;
  }

  /**
   * After a full pass over a snapshot of every registered tenant, no
   * tenant still registered is idle.
   */
  lemma NoIdleLeft(m: map<string, TenantContext>, ts: seq<TenantContext>, vs: seq<TenantView>, now: int, interval: int)
    requires |ts| == |vs|
    requires forall c :: c in m ==> m[c].code == c
    requires forall t :: t in m.Values ==> t in ts
    requires forall i :: 0 <= i < |ts| ==> vs[i].code == ts[i].code && vs[i].lastAccessed == ts[i].lastAccessed
    ensures forall t :: t in (m - IdleCodes(vs, |vs|, now, interval)).Values ==> !Idle(now, t.lastAccessed, interval)
  {
    forall t | t in (m - IdleCodes(vs, |vs|, now, interval)).Values
      ensures !Idle(now, t.lastAccessed, interval)
    {
      var c :| c in m - IdleCodes(vs, |vs|, now, interval) && (m - IdleCodes(vs, |vs|, now, interval))[c] == t;
      assert t in m.Values;
      var i :| 0 <= i < |ts| && ts[i] == t;
      IdleCodesMember(vs, |vs|, now, interval, c);
    }
  }

  /**
   * A pass removes only idle tenants: a registered tenant that is not idle
   * keeps its code, however far the pass over a snapshot of the registry got.
   */
  lemma NotIdleKept(m: map<string, TenantContext>, ts: seq<TenantContext>, vs: seq<TenantView>, n: nat, now: int, interval: int)
    requires |ts| == |vs| && n <= |vs|
    requires forall c :: c in m ==> m[c].code == c
    requires forall i :: 0 <= i < |ts| ==>
               ts[i] in m.Values && vs[i].code == ts[i].code && vs[i].lastAccessed == ts[i].lastAccessed
    ensures forall c :: c in m && !Idle(now, m[c].lastAccessed, interval) ==> c in m - IdleCodes(vs, n, now, interval)
  {
    forall c | c in m && !Idle(now, m[c].lastAccessed, interval)
      ensures c !in IdleCodes(vs, n, now, interval)
    {
      IdleCodesMember(vs, n, now, interval, c);
      forall i | 0 <= i < n && vs[i].code == c
        ensures !Idle(now, vs[i].lastAccessed, interval)
      {
        CodeIdentifiesTenant(m, ts[i], ts[i]);
      }
    }
  }

  /** Appending a pass's calls in two steps appends them in one. */
  lemma AppendStep(a: seq<Event>, b: seq<Event>, c: seq<Event>)
    ensures (a + b) + c == a + (b + c)
  {
  }

  /** Removing two batches of keys one after the other removes their union. */
  lemma RemoveKeysStep<K, V>(m: map<K, V>, a: set<K>, b: set<K>)
    ensures m - (a + b) == (m - a) - b
  {
  }

  /**
   * One pass of the loop: the clock reading taken once the periodic timer's
   * wait returns, and the calls that throw during the pass. The timer's
   * one-minute period bounds when the readings are taken, not what they are,
   * so no relation between readings is assumed.
   */
  datatype Tick = Tick(now: int, faults: set<Event>)

  class TenantManagerHostedService {
    const tenantService: TenantService
    const options: TenantOptions

    constructor (tenantService: TenantService, options: TenantOptions)
      ensures this.tenantService == tenantService && this.options == options
    {
      this.tenantService := tenantService;
      this.options := options;
    }

    /**
     * `StopTenantsAsync`: one pass. The interval is read once and, unless
     * eviction is disabled, `now` is read once; then the active tenants are
     * visited in snapshot order and each idle one is stopped under its own
     * code. One try/catch wraps the pass: the first exception ends it, so
     * the tenants after the one whose stop threw are not examined.
     */
    method StopTenants(now: int, faults: set<Event>) returns (error: Option<Event>)
      requires tenantService.Valid()
      modifies tenantService`tenants, tenantService`trace, tenantService.tenants.Values`state
      ensures tenantService.Valid()
      ensures EvictionDisabled(options.stopInterval) ==>
                error == None
                && tenantService.tenants == old(tenantService.tenants)
                && tenantService.trace == old(tenantService.trace)
                && forall t :: t in old(tenantService.tenants.Values) ==> t.state == old(t.state)
      ensures error.Some? ==> error.value in faults
      ensures forall c :: c in tenantService.tenants ==>
                c in old(tenantService.tenants) && tenantService.tenants[c] == old(tenantService.tenants)[c]
      ensures forall c :: c in old(tenantService.tenants) && !Idle(now, old(tenantService.tenants)[c].lastAccessed, options.stopInterval) ==>
                c in tenantService.tenants
      ensures !EvictionDisabled(options.stopInterval) && error.None? ==>
                forall t :: t in tenantService.tenants.Values ==> !Idle(now, t.lastAccessed, options.stopInterval)
    {
      var interval := options.stopInterval;
      if EvictionDisabled(interval) {
        return None;
      }
      var snapshot, examined, thrown := StopActive(now, interval, faults);
      NotIdleKept(old(tenantService.tenants), snapshot, Views(snapshot), examined, now, interval);
      error := thrown;
    }

    /** The body of the pass's try block: snapshot the active tenants, then stop the idle ones. */
    method StopActive(now: int, interval: int, faults: set<Event>) returns (snapshot: seq<TenantContext>, examined: nat, error: Option<Event>)
      requires tenantService.Valid()
      modifies tenantService`tenants, tenantService`trace, tenantService.tenants.Values`state
      ensures tenantService.Valid()
      ensures forall t :: t in snapshot <==> t in old(tenantService.tenants.Values)
      ensures forall i, j :: 0 <= i < j < |snapshot| ==> snapshot[i] != snapshot[j]
      ensures examined <= |snapshot|
      ensures error.None? ==> examined == |snapshot|
      ensures error.Some? ==>
                && examined > 0 && error.value in faults
                && Idle(now, snapshot[examined - 1].lastAccessed, interval)
      ensures tenantService.tenants == old(tenantService.tenants) - IdleCodes(Views(snapshot), examined, now, interval)
      ensures tenantService.trace == old(tenantService.trace) + ReapTrace(Views(snapshot), examined, now, interval, faults)
      ensures forall i :: 0 <= i < |snapshot| ==>
                old(allocated(snapshot[i])) &&
                snapshot[i].state ==
                  if examined <= i || !Idle(now, snapshot[i].lastAccessed, interval) then old(snapshot[i].state)
                  else if error.Some? && i == examined - 1 then TenantState.Stopping
                  else TenantState.Stopped
      ensures error.None? ==> forall t :: t in tenantService.tenants.Values ==> !Idle(now, t.lastAccessed, interval)
    {
      snapshot := tenantService.ActiveTenants();
      ghost var vs := Views(snapshot);
      examined, error := StopEach(snapshot, vs, now, interval, faults);
      if error.None? {
        NoIdleLeft(old(tenantService.tenants), snapshot, vs, now, interval);
      }
    }

    /**
     * Where a pass over `snapshot` stands after `examined` tenants, from the
     * registry `registered`, calls `trace0` and states `states0` it started
     * with: the idle ones among them are unregistered, their stops' calls
     * were made in order, and their states are those `PassStates` gives.
     */
    ghost predicate Examined(snapshot: seq<TenantContext>, vs: seq<TenantView>, states0: seq<TenantState>,
                             registered: map<string, TenantContext>, trace0: seq<Event>,
                             examined: nat, error: Option<Event>, now: int, interval: int, faults: set<Event>)
      reads tenantService`tenants, tenantService`trace, snapshot`state
    {
      && |states0| == |vs|
      && PassProgress(vs, examined, error, now, interval, faults)
      && tenantService.tenants == registered - IdleCodes(vs, examined, now, interval)
      && tenantService.trace == trace0 + ReapTrace(vs, examined, now, interval, faults)
      && States(snapshot) == PassStates(states0, vs, examined, error, now, interval)
    }

    /**
     * The loop of a pass over `snapshot`, the registry's tenants each once,
     * whose codes, last accesses and containers are `vs`.
     */
    method StopEach(snapshot: seq<TenantContext>, ghost vs: seq<TenantView>, now: int, interval: int, faults: set<Event>)
      returns (examined: nat, error: Option<Event>)
      requires tenantService.Valid()
      requires Views(snapshot) == vs
      requires Snapshotted(tenantService.tenants, snapshot, vs)
      modifies tenantService`tenants, tenantService`trace, tenantService.tenants.Values`state
      ensures Views(snapshot) == vs
      ensures tenantService.Valid()
      ensures Examined(snapshot, vs, old(States(snapshot)), old(tenantService.tenants), old(tenantService.trace), examined, error, now, interval, faults)
      ensures error.None? ==> examined == |snapshot|
    {
      ghost var registered := tenantService.tenants;
      ghost var states0 := States(snapshot);
      examined, error := 0, None;
      while examined < |snapshot| && error.None?
        invariant tenantService.Valid()
        invariant Examined(snapshot, vs, states0, registered, old(tenantService.trace), examined, error, now, interval, faults)
      {
        error := Examine(snapshot, vs, states0, examined, snapshot[examined], now, interval, faults, registered, old(tenantService.trace));
        examined := examined + 1;
      }
    }

    /**
     * The body of the pass's loop for the `k`-th tenant of the snapshot,
     * the first `k` tenants examined without a failure.
     */
    method Examine(snapshot: seq<TenantContext>, ghost vs: seq<TenantView>, ghost states0: seq<TenantState>, k: nat, tenant: TenantContext,
                   now: int, interval: int, faults: set<Event>, ghost registered: map<string, TenantContext>, ghost trace0: seq<Event>)
      returns (thrown: Option<Event>)
      requires k < |snapshot| && tenant == snapshot[k]
      requires Snapshotted(registered, snapshot, vs)
      requires vs[k] == TenantView(tenant.code, tenant.lastAccessed, tenant.services)
      requires tenantService.Valid()
      requires Examined(snapshot, vs, states0, registered, trace0, k, None, now, interval, faults)
      modifies tenantService`tenants, tenantService`trace, tenant`state
      ensures tenantService.Valid()
      ensures Examined(snapshot, vs, states0, registered, trace0, k + 1, thrown, now, interval, faults)
    {
      assert tenant.code in tenantService.tenants && tenantService.tenants[tenant.code] == tenant by {
        UnexaminedStillRegistered(registered, snapshot, vs, k, now, interval);
      }
      ghost var removed := if Idle(now, tenant.lastAccessed, interval) then {tenant.code} else {};
      ghost var before := States(snapshot);
      thrown := StopIfIdle(tenant, now, interval, faults);
      ghost var after := States(snapshot);
      assert forall i :: 0 <= i < |snapshot| && i != k ==> after[i] == before[i];
      PassStatesStep(states0, vs, k, thrown, now, interval, before, after);
      RemoveKeysStep(registered, IdleCodes(vs, k, now, interval), removed);
      AppendStep(trace0, ReapTrace(vs, k, now, interval, faults), ReapStep(vs[k], now, interval, faults));
    }

    /** One tenant of the pass: stopped under its own code if it is idle. */
    method StopIfIdle(tenant: TenantContext, now: int, interval: int, faults: set<Event>) returns (thrown: Option<Event>)
      requires tenantService.Valid()
      requires tenant.code in tenantService.tenants && tenantService.tenants[tenant.code] == tenant
      modifies tenantService`tenants, tenantService`trace, tenant`state
      ensures tenantService.Valid()
      ensures tenantService.trace ==
                old(tenantService.trace) + ReapStep(TenantView(tenant.code, tenant.lastAccessed, tenant.services), now, interval, faults)
      ensures !Idle(now, tenant.lastAccessed, interval) ==>
                thrown == None && tenant.state == old(tenant.state)
                && tenantService.tenants == old(tenantService.tenants)
      ensures Idle(now, tenant.lastAccessed, interval) ==>
                && tenantService.tenants == old(tenantService.tenants) - {tenant.code}
                && (thrown.Some? ==> thrown.value in faults)
                && tenant.state == if thrown.None? then TenantState.Stopped else TenantState.Stopping
    {
      if now - tenant.lastAccessed < interval {
        assert tenantService.trace + [] == tenantService.trace;
        return None;
      }
      thrown := tenantService.Stop(tenant.code, faults);
    }

    /**
     * `ExecuteAsync`: one pass per tick of the periodic timer until
     * cancellation, modelled as the end of `ticks`. A failed pass is
     * swallowed and the loop goes on; the `OperationCanceledException` of
     * cancellation is swallowed too, so the loop ends normally.
     */
    method Execute(ticks: seq<Tick>) returns (errors: seq<Option<Event>>)
      requires tenantService.Valid()
      modifies tenantService`tenants, tenantService`trace, tenantService.tenants.Values`state
      ensures tenantService.Valid()
      ensures |errors| == |ticks|
      ensures forall i :: 0 <= i < |errors| && errors[i].Some? ==> errors[i].value in ticks[i].faults
      ensures forall c :: c in tenantService.tenants ==>
                c in old(tenantService.tenants) && tenantService.tenants[c] == old(tenantService.tenants)[c]
      ensures forall c ::
                (c in old(tenantService.tenants) &&
                 forall i :: 0 <= i < |ticks| ==> !Idle(ticks[i].now, old(tenantService.tenants)[c].lastAccessed, options.stopInterval))
                ==> c in tenantService.tenants
      ensures EvictionDisabled(options.stopInterval) ==>
                tenantService.tenants == old(tenantService.tenants) && tenantService.trace == old(tenantService.trace)
                && (forall i :: 0 <= i < |errors| ==> errors[i].None?)
                && forall t :: t in old(tenantService.tenants.Values) ==> t.state == old(t.state)
      ensures !EvictionDisabled(options.stopInterval) && |ticks| > 0 && errors[|ticks| - 1].None? ==>
                forall t :: t in tenantService.tenants.Values ==>
                  !Idle(ticks[|ticks| - 1].now, t.lastAccessed, options.stopInterval)
    {
      errors := [];
      var i := 0;
      while i < |ticks|
        invariant i <= |ticks| && |errors| == i
        invariant tenantService.Valid()
        invariant forall k :: 0 <= k < i && errors[k].Some? ==> errors[k].value in ticks[k].faults
        invariant forall c :: c in tenantService.tenants ==>
                    c in old(tenantService.tenants) && tenantService.tenants[c] == old(tenantService.tenants)[c]
        invariant forall c ::
                    (c in old(tenantService.tenants) &&
                     forall k :: 0 <= k < i ==> !Idle(ticks[k].now, old(tenantService.tenants)[c].lastAccessed, options.stopInterval))
                    ==> c in tenantService.tenants
        invariant EvictionDisabled(options.stopInterval) ==>
                    tenantService.tenants == old(tenantService.tenants) && tenantService.trace == old(tenantService.trace)
                    && (forall k :: 0 <= k < i ==> errors[k].None?)
                    && forall t :: t in old(tenantService.tenants.Values) ==> t.state == old(t.state)
        invariant !EvictionDisabled(options.stopInterval) && i > 0 && errors[i - 1].None? ==>
                    forall t :: t in tenantService.tenants.Values ==>
                      !Idle(ticks[i - 1].now, t.lastAccessed, options.stopInterval)
      {
        var error := StopTenants(ticks[i].now, ticks[i].faults);
        errors := errors + [error];
        i := i + 1;
      }
    }
  }
}

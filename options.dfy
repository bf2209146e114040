/**
 * `TenantOptions`: the process-wide policy knobs, with the source's defaults.
 * Durations are `TimeSpan` tick counts (100 ns each).
 */
module Options {
  import opened ServiceModel

  /** `TimeSpan.Zero` */
  const TimeSpanZero: int := 0
  /** `TimeSpan.MaxValue`, which the options use for "never". */
  const TimeSpanMaxValue: int := 0x7FFF_FFFF_FFFF_FFFF

  class TenantOptions {
    /** How long a tenant may go unaccessed before the reaper stops it. */
    var stopInterval: int
    /** Whether a type missing from the tenant container is announced as a fallback. */
    var allowFallbackToHostServiceProvider: bool
    /**
     * Scoped types resolved from the host's request scope. The source exposes
     * the set object get-only; only its contents change.
     */
    var redirectScopeTypes: set<TypeRef>

    constructor ()
      ensures stopInterval == TimeSpanMaxValue
      ensures !allowFallbackToHostServiceProvider
      ensures redirectScopeTypes == {}
    {
      stopInterval := TimeSpanMaxValue;
      allowFallbackToHostServiceProvider := false;
      redirectScopeTypes := {};
    }

    method SetStopInterval(interval: int)
      modifies this`stopInterval
      ensures stopInterval == interval
    {
      stopInterval := interval;
    }

    method SetAllowFallbackToHostServiceProvider(allow: bool)
      modifies this`allowFallbackToHostServiceProvider
      ensures allowFallbackToHostServiceProvider == allow
    {
      allowFallbackToHostServiceProvider := allow;
    }

    /** `RedirectScopeTypes.Add(t)`: a set, so adding a type twice keeps one entry. */
    method AddRedirectScopeType(t: TypeRef) returns (added: bool)
      modifies this`redirectScopeTypes
      ensures redirectScopeTypes == old(redirectScopeTypes) + {t}
      ensures added <==> t !in old(redirectScopeTypes)
    {
      added := t !in redirectScopeTypes;
      redirectScopeTypes := redirectScopeTypes + {t};
    }
  }
}

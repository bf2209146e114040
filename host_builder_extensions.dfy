/**
 * `TenantHostBuilderExtensions`: the host-name tenant resolver installed by
 * `ResolveTenantByHost`, and the logger provider installed by
 * `RedirectLoggingToHost`, which sends a tenant's log categories to the
 * host's logger factory under a tenant-prefixed name.
 */
module HostExtensions {
  import opened Wrappers

  /** The decimal digits of a port number, most significant first. */
  function Digits(n: nat): (s: string)
    ensures |s| >= 1
    ensures forall i :: 0 <= i < |s| ==> '0' <= s[i] <= '9'
    // One digit exactly for the numbers below ten: no leading zeros.
    ensures |s| == 1 <==> n < 10
    decreases n
  {
    var d := [(('0' as int) + n % 10) as char];
    if n < 10 then d else Digits(n / 10) + d
  }

  /** Different ports are written differently. */
  lemma {:induction false} DigitsInjective(m: nat, n: nat)
    ensures Digits(m) == Digits(n) ==> m == n
    decreases m
  {
    if Digits(m) == Digits(n) {
      var s := Digits(m);
      assert s[|s| - 1] == (('0' as int) + m % 10) as char;
      assert s[|s| - 1] == (('0' as int) + n % 10) as char;
      if m >= 10 {
        assert s[..|s| - 1] == Digits(m / 10);
        assert s[..|s| - 1] == Digits(n / 10);
        DigitsInjective(m / 10, n / 10);
      }
    }
  }

  /** `Request.Host`: the host name and the port, if the request carried one. */
  datatype HostString = HostString(host: string, port: Option<nat>)
  {
    /** `HostString.ToString()`: the host name, then `:` and the port when there is one. */
    function ToString(): (s: string)
      ensures port.None? ==> s == host
      ensures port.Some? ==> |s| > |host| + 1 && s[..|host|] == host && s[|host|] == ':'
      ensures port.Some? ==> s[|host| + 1..] == Digits(port.value)
    {
      if port.Some? then host + ":" + Digits(port.value) else host
    }
  }

  /** The port a browser leaves out for the scheme: 80 for `http`, 443 for `https`. */
  predicate IsDefaultPort(port: nat, scheme: string)
  {
    (port == 80 && scheme == "http") || (port == 443 && scheme == "https")
  }

  /**
   * `HostResolver.ResolveAsync`: the tenant code of a request is its host
   * name, with the port kept unless it is excluded or is the scheme's
   * default one. The result is never null.
   */
  function ResolveByHost(includePort: bool, host: HostString, scheme: string): (code: Option<string>)
    ensures code.Some?
    // Without the port, the bare host name whatever the port and scheme.
    ensures !includePort ==> code.value == host.host
    // The default port of the scheme is dropped.
    ensures includePort && host.port.Some? && IsDefaultPort(host.port.value, scheme) ==> code.value == host.host
    // Any other port, including 80 over https, is kept after a colon.
    ensures includePort && host.port.Some? && !IsDefaultPort(host.port.value, scheme) ==>
              code.value == host.host + ":" + Digits(host.port.value)
    // A host string without a port is the host name itself.
    ensures host.port.None? ==> code.value == host.host
  {
    if !includePort then Some(host.host)
    else if host.port.Some? && IsDefaultPort(host.port.value, scheme) then Some(host.host)
    else Some(host.ToString())
  }

  /**
   * The resolver answers with the bare host name exactly when the port is
   * excluded, absent, or the scheme's default; otherwise the answer extends
   * the host name and so never collides with it.
   */
  lemma BareHostIff(includePort: bool, host: HostString, scheme: string)
    ensures ResolveByHost(includePort, host, scheme) == Some(host.host) <==>
              (!includePort || host.port.None? || IsDefaultPort(host.port.value, scheme))
  {
    if includePort && host.port.Some? && !IsDefaultPort(host.port.value, scheme) {
      assert |host.ToString()| > |host.host|;
    }
  }

  /**
   * On one host, two ports that are kept give two different tenant codes:
   * `host:8080` and `host:8081` are different tenants.
   */
  lemma DistinctPortsDistinctCodes(host: string, p: nat, q: nat, scheme: string)
    requires p != q && !IsDefaultPort(p, scheme) && !IsDefaultPort(q, scheme)
    ensures ResolveByHost(true, HostString(host, Some(p)), scheme) != ResolveByHost(true, HostString(host, Some(q)), scheme)
  {
    DigitsInjective(p, q);
  }

  /** `PrefixLogger`: the category name a tenant's logger is created under. */
  type PrefixLogger = (string, string) -> string

  /** The formatter used when `RedirectLoggingToHost` is given none: `[code] category`. */
  function DefaultPrefix(tenantCode: string, categoryName: string): (name: string)
    ensures |name| == |tenantCode| + |categoryName| + 3
    ensures name[0] == '[' && name[|tenantCode| + 1..|tenantCode| + 3] == "] "
    ensures name[1..|tenantCode| + 1] == tenantCode && name[|tenantCode| + 3..] == categoryName
  {
    "[" + tenantCode + "] " + categoryName
  }

  /** `formatCategoryName ??= …`: the supplied formatter, or the default one. */
  function ChooseFormatter(supplied: Option<PrefixLogger>): (f: PrefixLogger)
    ensures supplied.Some? ==> f == supplied.value
    ensures supplied.None? ==> forall code, category :: f(code, category) == DefaultPrefix(code, category)
  {
    if supplied.Some? then supplied.value else DefaultPrefix
  }

  /** The characters of `s` before its first `]` (all of `s` if it has none). */
  function UpToBracket(s: string): string
    decreases |s|
  {
    if |s| == 0 || s[0] == ']' then [] else [s[0]] + UpToBracket(s[1..])
  }

  /** Reading up to the first `]` recovers a string that contains none and is followed by one. */
  lemma {:induction false} UpToBracketOf(a: string, rest: string)
    requires ']' !in a
    requires |rest| > 0 && rest[0] == ']'
    ensures UpToBracket(a + rest) == a
    decreases |a|
  {
    if |a| == 0 {
      assert a + rest == rest;
    } else {
      assert (a + rest)[0] == a[0];
      assert (a + rest)[1..] == a[1..] + rest;
      UpToBracketOf(a[1..], rest);
      assert a == [a[0]] + a[1..];
    }
  }

  /**
   * For tenant codes without a `]`, the default prefixed name determines both
   * the tenant code and the category: different tenants never share a host
   * logger category.
   */
  lemma {:induction false} DefaultPrefixInjective(c1: string, k1: string, c2: string, k2: string)
    requires ']' !in c1 && ']' !in c2
    requires DefaultPrefix(c1, k1) == DefaultPrefix(c2, k2)
    ensures c1 == c2 && k1 == k2
  {
    var s := DefaultPrefix(c1, k1);
    assert s[1..] == c1 + ("] " + k1);
    assert s[1..] == c2 + ("] " + k2);
    UpToBracketOf(c1, "] " + k1);
    UpToBracketOf(c2, "] " + k2);
  }

  /** A logger handed out by the host's `ILoggerFactory`, identified by its category name. */
  datatype Logger = HostLogger(categoryName: string)

  /**
   * `RedirectLoggingToHostTenantInitializer`: the tenant's `ILoggerProvider`.
   * `categoryNames` is the `_categoryNames` cache; `formatted` counts the
   * calls of the formatter.
   */
  class RedirectLoggingProvider {
    /** `tenantContext.Code`. */
    const tenantCode: string
    /** The `formatCategoryName` given to `RedirectLoggingToHost`, if any. */
    const supplied: Option<PrefixLogger>
    const prefix: PrefixLogger
    var categoryNames: map<(string, string), string>
    var formatted: nat

    /** The formatter is the chosen one, and every cached name is its answer for its key. */
    ghost predicate Valid()
      reads this
    {
      && prefix == ChooseFormatter(supplied)
      && forall key :: key in categoryNames ==> categoryNames[key] == prefix(key.0, key.1)
    }

    /** `RedirectLoggingToHost(formatCategoryName)`, then the provider for one tenant. */
    constructor (tenantCode: string, supplied: Option<PrefixLogger>)
      ensures Valid()
      ensures this.tenantCode == tenantCode && this.supplied == supplied
      ensures supplied.Some? ==> prefix == supplied.value
      ensures categoryNames == map[] && formatted == 0
    {
      this.tenantCode := tenantCode;
      this.supplied := supplied;
      prefix := ChooseFormatter(supplied);
      categoryNames := map[];
      formatted := 0;
    }

    /**
     * `CreateLogger(categoryName)`: the host logger for the formatted name.
     * The formatter runs only for a (tenant, category) pair not seen before.
     */
    method CreateLogger(categoryName: string) returns (logger: Logger)
      requires Valid()
      modifies this
      ensures Valid()
      ensures logger == HostLogger(prefix(tenantCode, categoryName))
      // Without a formatter of the caller's, the host category is `[code] category`.
      ensures supplied.None? ==> logger == HostLogger(DefaultPrefix(tenantCode, categoryName))
      ensures categoryNames == old(categoryNames)[(tenantCode, categoryName) := prefix(tenantCode, categoryName)]
      ensures formatted == old(formatted) + (if (tenantCode, categoryName) in old(categoryNames) then 0 else 1)
    {
      var key := (tenantCode, categoryName);
      var name;
      if key in categoryNames {
        name := categoryNames[key];
      } else {
        name := prefix(key.0, key.1);
        formatted := formatted + 1;
        categoryNames := categoryNames[key := name];
      }
      logger := HostLogger(name);
    }
  }
}

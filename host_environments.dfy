/**
 * The tenant's hosting environments. `TenantHostEnvironment` answers each
 * property from its own override, else from the host's `IHostEnvironment`,
 * else from a default. `TenantWebHostEnvironment` answers from its override,
 * else from the root environment, and builds its file providers lazily,
 * dropping them when the path they were built from is set.
 */
module Hosting {
  import opened Wrappers

  /** An `IFileProvider`. `Given` stands for one assigned from outside. */
  datatype FileProvider =
    | NullFileProvider
    | PhysicalFileProvider(root: string)
    | CompositeFileProvider(first: FileProvider, second: FileProvider)
    | Given(id: nat)

  /**
   * An environment a tenant environment falls back to: the host's
   * `IHostEnvironment`. `webRootPath` is `None` when the environment is not
   * an `IWebHostEnvironment` or has no web root.
   */
  class HostEnvironment {
    var environmentName: string
    var applicationName: string
    var contentRootPath: string
    var contentRootFileProvider: FileProvider
    var webRootPath: Option<string>

    constructor (environmentName: string, applicationName: string, contentRootPath: string,
                 contentRootFileProvider: FileProvider, webRootPath: Option<string>)
      ensures this.environmentName == environmentName && this.applicationName == applicationName
      ensures this.contentRootPath == contentRootPath && this.contentRootFileProvider == contentRootFileProvider
      ensures this.webRootPath == webRootPath
    {
      this.environmentName := environmentName;
      this.applicationName := applicationName;
      this.contentRootPath := contentRootPath;
      this.contentRootFileProvider := contentRootFileProvider;
      this.webRootPath := webRootPath;
    }
  }

  /** `x ?? y` over optional values. */
  function Coalesce<T>(x: Option<T>, y: T): (r: T)
    ensures x.Some? ==> r == x.value
    ensures x.None? ==> r == y
  {
    if x.Some? then x.value else y
  }

  /** The environment name of a host with no `IHostEnvironment`. */
  const DefaultEnvironmentName := "Production"

  /**
   * `TenantHostEnvironment`: the `IHostEnvironment` a tenant container is
   * given. `parent` is the host's environment, if the host registered one.
   * The working directory is passed to the content-root getter, which reads
   * it only when neither this instance nor the parent has a content root.
   */
  class TenantHostEnvironment {
    const parent: Option<HostEnvironment>
    var contentRootPathOverride: Option<string>
    var contentRootFileProviderOverride: Option<FileProvider>
    var environmentNameOverride: Option<string>
    var applicationNameOverride: Option<string>

    /** The environments whose fields the getters read. */
    ghost function Parents(): set<object>
    {
      if parent.Some? then {parent.value} else {}
    }

    constructor (parent: Option<HostEnvironment>)
      ensures this.parent == parent
      ensures contentRootPathOverride.None? && contentRootFileProviderOverride.None?
      ensures environmentNameOverride.None? && applicationNameOverride.None?
    {
      this.parent := parent;
      contentRootPathOverride := None;
      contentRootFileProviderOverride := None;
      environmentNameOverride := None;
      applicationNameOverride := None;
    }

    /** `EnvironmentName`: the override, else the parent's, else `Production`. */
    function EnvironmentName(): (name: string)
      reads this, Parents()
      ensures environmentNameOverride.Some? ==> name == environmentNameOverride.value
      ensures environmentNameOverride.None? && parent.Some? ==> name == parent.value.environmentName
      ensures environmentNameOverride.None? && parent.None? ==> name == DefaultEnvironmentName
    {
      Coalesce(environmentNameOverride, if parent.Some? then parent.value.environmentName else DefaultEnvironmentName)
    }

    /** `ApplicationName`: the override, else the parent's, else empty. */
    function ApplicationName(): (name: string)
      reads this, Parents()
      ensures applicationNameOverride.Some? ==> name == applicationNameOverride.value
      ensures applicationNameOverride.None? && parent.Some? ==> name == parent.value.applicationName
      ensures applicationNameOverride.None? && parent.None? ==> name == ""
    {
      Coalesce(applicationNameOverride, if parent.Some? then parent.value.applicationName else "")
    }

    /** `ContentRootPath`: the override, else the parent's, else the working directory. */
    function ContentRootPath(currentDirectory: string): (path: string)
      reads this, Parents()
      ensures contentRootPathOverride.Some? ==> path == contentRootPathOverride.value
      ensures contentRootPathOverride.None? && parent.Some? ==> path == parent.value.contentRootPath
      ensures contentRootPathOverride.None? && parent.None? ==> path == currentDirectory
    {
      Coalesce(contentRootPathOverride, if parent.Some? then parent.value.contentRootPath else currentDirectory)
    }

    /** `ContentRootFileProvider`: the override, else the parent's, else the shared null provider. */
    function ContentRootFileProvider(): (provider: FileProvider)
      reads this, Parents()
      ensures contentRootFileProviderOverride.Some? ==> provider == contentRootFileProviderOverride.value
      ensures contentRootFileProviderOverride.None? && parent.Some? ==> provider == parent.value.contentRootFileProvider
      ensures contentRootFileProviderOverride.None? && parent.None? ==> provider == NullFileProvider
    {
      Coalesce(contentRootFileProviderOverride,
               if parent.Some? then parent.value.contentRootFileProvider else NullFileProvider)
    }

    method SetEnvironmentName(value: string)
      modifies this`environmentNameOverride
      ensures EnvironmentName() == value
      ensures environmentNameOverride == Some(value)
    {
      environmentNameOverride := Some(value);
    }

    method SetApplicationName(value: string)
      modifies this`applicationNameOverride
      ensures ApplicationName() == value
      ensures applicationNameOverride == Some(value)
    {
      applicationNameOverride := Some(value);
    }

    /**
     * Setting the content root also drops an assigned file provider, so the
     * provider falls back to the parent's (or the null provider) again.
     */
    method SetContentRootPath(value: string)
      modifies this`contentRootPathOverride, this`contentRootFileProviderOverride
      ensures forall cwd :: ContentRootPath(cwd) == value
      ensures contentRootPathOverride == Some(value) && contentRootFileProviderOverride.None?
      ensures ContentRootFileProvider() == if parent.Some? then parent.value.contentRootFileProvider else NullFileProvider
    {
      contentRootPathOverride := Some(value);
      contentRootFileProviderOverride := None;
    }

    method SetContentRootFileProvider(value: FileProvider)
      modifies this`contentRootFileProviderOverride
      ensures ContentRootFileProvider() == value
      ensures contentRootFileProviderOverride == Some(value)
    {
      contentRootFileProviderOverride := Some(value);
    }
  }

  /** `WebRootPath` read with neither an override nor a web root to fall back to. */
  datatype EnvironmentError = WebRootPathNotSet

  /**
   * `TenantWebHostEnvironment`: the `IWebHostEnvironment` a tenant
   * application sees, over the root environment it was created with.
   * `contentRootFileProvider` and `webRootFileProvider` hold either an
   * assigned provider or one built on first read.
   */
  class TenantWebHostEnvironment {
    const root: HostEnvironment
    var applicationNameOverride: Option<string>
    var environmentNameOverride: Option<string>
    var contentRootPathOverride: Option<string>
    var webRootFileProvider: Option<FileProvider>
    var contentRootFileProvider: Option<FileProvider>
    var webRootPathOverride: Option<string>

    /** A web root given at construction becomes this instance's own. */
    constructor (root: HostEnvironment, webRootPath: Option<string>)
      ensures this.root == root && webRootPathOverride == webRootPath
      ensures applicationNameOverride.None? && environmentNameOverride.None? && contentRootPathOverride.None?
      ensures webRootFileProvider.None? && contentRootFileProvider.None?
    {
      this.root := root;
      applicationNameOverride := None;
      environmentNameOverride := None;
      contentRootPathOverride := None;
      webRootFileProvider := None;
      contentRootFileProvider := None;
      webRootPathOverride := webRootPath;
    }

    function ApplicationName(): (name: string)
      reads this, root
      ensures applicationNameOverride.Some? ==> name == applicationNameOverride.value
      ensures applicationNameOverride.None? ==> name == root.applicationName
    {
      Coalesce(applicationNameOverride, root.applicationName)
    }

    function EnvironmentName(): (name: string)
      reads this, root
      ensures environmentNameOverride.Some? ==> name == environmentNameOverride.value
      ensures environmentNameOverride.None? ==> name == root.environmentName
    {
      Coalesce(environmentNameOverride, root.environmentName)
    }

    function ContentRootPath(): (path: string)
      reads this, root
      ensures contentRootPathOverride.Some? ==> path == contentRootPathOverride.value
      ensures contentRootPathOverride.None? ==> path == root.contentRootPath
    {
      Coalesce(contentRootPathOverride, root.contentRootPath)
    }

    /**
     * `CreateContentRootFileProvider`: a physical provider over the content
     * root; when the content root is not the root environment's, it is
     * layered over the root environment's provider, this one first.
     */
    function CreateContentRootFileProvider(): (provider: FileProvider)
      reads this, root
      ensures ContentRootPath() == root.contentRootPath ==> provider == PhysicalFileProvider(root.contentRootPath)
      ensures ContentRootPath() != root.contentRootPath ==>
                provider == CompositeFileProvider(PhysicalFileProvider(ContentRootPath()), root.contentRootFileProvider)
      // Whichever it is, the tenant's own content root is searched first.
      ensures PrimaryRoot(provider) == Some(ContentRootPath())
    {
      if ContentRootPath() == root.contentRootPath then PhysicalFileProvider(ContentRootPath())
      else CompositeFileProvider(PhysicalFileProvider(ContentRootPath()), root.contentRootFileProvider)
    }

    /**
     * `ContentRootFileProvider` getter (`??=`): the held provider, else a new
     * one, which is then held until the content root is set.
     */
    method GetContentRootFileProvider() returns (provider: FileProvider)
      modifies this`contentRootFileProvider
      ensures old(contentRootFileProvider).Some? ==> provider == old(contentRootFileProvider).value
      ensures old(contentRootFileProvider).None? ==> provider == CreateContentRootFileProvider()
      ensures contentRootFileProvider == Some(provider)
    {
      if contentRootFileProvider.None? {
        var created := CreateContentRootFileProvider();
        contentRootFileProvider := Some(created);
      }
      provider := contentRootFileProvider.value;
    }

    method SetContentRootFileProvider(value: FileProvider)
      modifies this`contentRootFileProvider
      ensures contentRootFileProvider == Some(value)
    {
      contentRootFileProvider := Some(value);
    }

    /** Setting the content root drops the held content provider; the next read rebuilds it. */
    method SetContentRootPath(value: string)
      modifies this`contentRootPathOverride, this`contentRootFileProvider
      ensures ContentRootPath() == value
      ensures contentRootPathOverride == Some(value) && contentRootFileProvider.None?
    {
      contentRootPathOverride := Some(value);
      contentRootFileProvider := None;
    }

    /**
     * `WebRootPath`: the override, else the root's when the root is a web
     * environment with a web root, else `InvalidOperationException`.
     */
    function WebRootPath(): (path: Result<string, EnvironmentError>)
      reads this, root
      ensures path.Success? <==> webRootPathOverride.Some? || root.webRootPath.Some?
      ensures webRootPathOverride.Some? ==> path == Success(webRootPathOverride.value)
      ensures webRootPathOverride.None? && root.webRootPath.Some? ==> path == Success(root.webRootPath.value)
      ensures path.Failure? ==> path.error == WebRootPathNotSet
    {
      if webRootPathOverride.Some? then Success(webRootPathOverride.value)
      else if root.webRootPath.Some? then Success(root.webRootPath.value)
      else Failure(WebRootPathNotSet)
    }

    /**
     * `WebRootFileProvider` getter (`??=`): the held provider, else a
     * physical provider over the web root, which is then held. When there is
     * no web root the error propagates and nothing is held.
     */
    method GetWebRootFileProvider() returns (provider: Result<FileProvider, EnvironmentError>)
      modifies this`webRootFileProvider
      ensures old(webRootFileProvider).Some? ==> provider == Success(old(webRootFileProvider).value)
      ensures old(webRootFileProvider).None? && WebRootPath().Success? ==>
                provider == Success(PhysicalFileProvider(WebRootPath().value))
      ensures old(webRootFileProvider).None? && WebRootPath().Failure? ==>
                provider == Failure(WebRootPathNotSet) && webRootFileProvider.None?
      ensures provider.Success? ==> webRootFileProvider == Some(provider.value)
    {
      if webRootFileProvider.None? {
        var path := WebRootPath();
        if path.Failure? {
          return Failure(path.error);
        }
        webRootFileProvider := Some(PhysicalFileProvider(path.value));
      }
      provider := Success(webRootFileProvider.value);
    }

    method SetWebRootFileProvider(value: FileProvider)
      modifies this`webRootFileProvider
      ensures webRootFileProvider == Some(value)
    {
      webRootFileProvider := Some(value);
    }

    /** Setting the web root drops the held web-root provider; the next read rebuilds it. */
    method SetWebRootPath(value: string)
      modifies this`webRootPathOverride, this`webRootFileProvider
      ensures WebRootPath() == Success(value)
      ensures webRootPathOverride == Some(value) && webRootFileProvider.None?
    {
      webRootPathOverride := Some(value);
      webRootFileProvider := None;
    }
  }

  /** The directory a provider searches first, if it is backed by one. */
  function PrimaryRoot(provider: FileProvider): Option<string>
  {
    match provider
    case PhysicalFileProvider(root) => Some(root)
    case CompositeFileProvider(first, _) => PrimaryRoot(first)
    case _ => None
  }
}

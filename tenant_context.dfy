/** `TenantContext`: the mutable record the registry keeps per tenant. */
module TenantInstance {
  import opened Wrappers
  import opened ServiceModel

  datatype TenantState = Starting | Running | Stopping | Stopped

  class TenantContext {
    /** Fixed at construction. */
    const code: string
    /** The tenant's container; unset (`null!`) until the registry builds it. */
    var services: Option<ServiceProvider>
    var state: TenantState
    /** UTC ticks of the last lookup. */
    var lastAccessed: int

    /** `new TenantContext(code)`, with `DateTimeOffset.UtcNow` passed in as `now`. */
    constructor (code: string, now: int)
      ensures this.code == code
      ensures services == None
      ensures state == Starting
      ensures lastAccessed == now
    {
      this.code := code;
      services := None;
      state := Starting;
      lastAccessed := now;
    }
  }
}

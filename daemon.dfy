/**
 * The updater's `main`: the fatal startup sequence (main.go:40-82) and one
 * turn of the loop that follows (main.go:84-123), driving the resolver
 * object and the reconciliation decision.
 */
module Daemon {
  import opened Wrappers
  import opened Config
  import opened Zones
  import opened Resolver
  import opened Reconciler

  /** What the loop runs with once startup has succeeded. */
  datatype Session = Session(settings: Settings, target: Target)

  /**
   * Startup: configuration checks, then the provider client (`client`),
   * then the zone list (`listed`) and the first zone matching the domain.
   * Each failure is fatal and the first one met is reported.
   */
  method Start(env: Env, client: Outcome<ProviderError>, listed: Result<seq<Zone>, ProviderError>)
    returns (r: Result<Session, StartupError>)
    ensures Configure(env).Failure? ==> r == Failure(MissingConfig)
    ensures Configure(env).Success? && client.Fail? ==> r == Failure(ClientInitFailed)
    ensures Configure(env).Success? && client.Pass? && listed.Failure? ==> r == Failure(ZoneListFailed)
    ensures Configure(env).Success? && client.Pass? && listed.Success? ==>
              (r.Failure? <==> forall j | 0 <= j < |listed.value| :: !HasSuffix(env.domain, listed.value[j].name))
    ensures r.Failure? && Configure(env).Success? && client.Pass? && listed.Success? ==> r.error == NoMatchingZone
    ensures r.Success? ==> Configure(env) == Success(r.value.settings) && listed.Success?
    ensures r.Success? ==> r.value.target.subDomain == r.value.settings.subDomain
    ensures r.Success? ==> r.value.target.fullDomain == r.value.settings.fullDomain
    ensures r.Success? ==> exists k: nat :: IsFirstMatch(listed.value, env.domain, k) && r.value.target.zoneId == listed.value[k].id
  {
    var config := Configure(env);
    if config.Failure? {
      return Failure(MissingConfig);
    }
    if client.Fail? {
      return Failure(ClientInitFailed);
    }
    if listed.Failure? {
      return Failure(ZoneListFailed);
    }
    var zone := SelectZone(listed.value, env.domain);
    if zone.Failure? {
      return Failure(zone.error);
    }
    var settings := config.value;
    var target := Target(listed.value[zone.value].id, settings.subDomain, settings.fullDomain);
    return Success(Session(settings, target));
  }

  /**
   * One turn of the loop: ask the resolver for the address, then decide the
   * provider calls. Only the resolver's remembered service changes.
   */
  method RunCycle(resolver: IpResolver, lookup: string -> Lookup, s: Session,
                  fetched: Result<seq<Record>, ProviderError>, created: Result<Record, ProviderError>,
                  updated: Outcome<ProviderError>)
    returns (c: Cycle)
    modifies resolver
    ensures resolver.Valid()
    ensures resolver.sticky == ResolveFrom(resolver.sources, old(resolver.sticky), lookup).sticky
    ensures c == Reconcile(s.target, ResolveFrom(resolver.sources, old(resolver.sticky), lookup).result, fetched, created, updated)
  {
    var ip, attempted := resolver.GetCurrentIP(lookup);
    c := Reconcile(s.target, ip, fetched, created, updated);
  }
}

/**
 * Zone selection at startup (main.go:64-82): the first zone, in the order
 * the provider listed them, whose name is a suffix of the configured domain.
 */
module Zones {
  import opened Wrappers
  import opened Config

  /** The two fields of a provider zone the updater reads. */
  datatype Zone = Zone(id: string, name: string)

  /** Go's `strings.HasSuffix(s, suffix)`. */
  predicate HasSuffix(s: string, suffix: string) {
    |suffix| <= |s| && s[|s| - |suffix|..] == suffix
  }

  /** Zone `k` matches the domain and no zone listed before it does. */
  ghost predicate IsFirstMatch(zones: seq<Zone>, domain: string, k: nat) {
    k < |zones| && HasSuffix(domain, zones[k].name) &&
    forall j | 0 <= j < k :: !HasSuffix(domain, zones[j].name)
  }

  /**
   * The `for … range zones` search with its `break`: the index of the
   * first matching zone, or the fatal "no matching zone" outcome.
   */
  method SelectZone(zones: seq<Zone>, domain: string) returns (r: Result<nat, StartupError>)
    ensures r.Success? ==> IsFirstMatch(zones, domain, r.value)
    ensures r.Failure? ==> r.error == NoMatchingZone
    ensures r.Failure? <==> forall j | 0 <= j < |zones| :: !HasSuffix(domain, zones[j].name)
  {
    for i := 0 to |zones|
      invariant forall j | 0 <= j < i :: !HasSuffix(domain, zones[j].name)
    {
      if HasSuffix(domain, zones[i].name) {
        return Success(i);
      }
    }
    return Failure(NoMatchingZone);
  }

  lemma {:induction false} HasSuffixTransitive(s: string, mid: string, suffix: string)
    requires HasSuffix(s, mid) && HasSuffix(mid, suffix)
    ensures HasSuffix(s, suffix)
  {
    var a := s[|s| - |suffix|..];
    assert a == s[|s| - |mid|..][|mid| - |suffix|..];
  }

  /**
   * A zone selected for the domain also has the managed hostname as a
   * subdomain: its name is a suffix of `fullDomain`.
   */
  lemma {:induction false} SelectedZoneCoversHost(prefix: string, segment: string, domain: string, zone: Zone)
    requires HasSuffix(domain, zone.name)
    ensures HasSuffix(FullDomain(prefix, segment, domain), zone.name)
  {
    var full := FullDomain(prefix, segment, domain);
    assert full[|full| - |domain|..] == domain;
    HasSuffixTransitive(full, domain, zone.name);
  }
}

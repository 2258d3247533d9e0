# Dynamic DNS updater — Dafny model

This project models the decision logic of a small dynamic-DNS daemon written in Go (`main.go`).
The daemon keeps one A record at Cloudflare pointing at the machine's current public IP address. At
startup it checks its configuration, composes the managed hostname `prefix[.segment].domain` and picks
the provider zone for the domain. It then loops forever. Each turn asks one of two IP lookup services
for the address, lists the hostname's A records, and either creates the record, updates the first
record when its content is stale, or does nothing. Then it sleeps for the configured period. Network
results, provider answers and the parsed environment are parameters of the model.

Modules:
- `Wrappers` (`wrappers.dfy`): `Option`, `Result` and `Outcome`.
- `Config` (`config.dfy`): the required settings, the period default, the hostname and the sleep duration.
- `Zones` (`zones.dfy`): the first zone whose name is a suffix of the domain. This is a loop with `break` in the source and a method with a loop here.
- `Resolver` (`resolver.dfy`): the IP resolver. It is a class whose field `sticky` is the source's `lastSuccessfulAPI`; the constant field `sources` holds the fixed list `ipInfoAPIs`. `GetCurrentIP` runs the source's loop over the two services and is proved equal to the specification function `ResolveFrom`.
- `Reconciler` (`reconciler.dfy`): one loop turn as the pure function `Reconcile`, plus a model of the provider's records that is used to prove what repeated turns do.
- `Daemon` (`daemon.dfy`): `Start` (the fatal startup sequence) and `RunCycle` (resolver call followed by the reconciliation decision).

Behaviour of `main.go` worth knowing when reading the model:
- An update failure does not skip the sleep. Only resolver, list and create failures `continue` (main.go:86-104, 114-122).
- A record is listed under `fullDomain` but created and updated under `subDomain` (main.go:93, 100, 113).
- Several zones may match the domain. The first one in provider order is used, and nothing checks that only one matches (main.go:71-78).

## Model

| member | source | states |
|---|---|---|
| `Config.SubDomain` | main.go:50-53 | the prefix alone for an empty segment, otherwise prefix, ".", segment; it always starts with the prefix |
| `Config.FullDomain` | main.go:54 | `prefix.domain` for an empty segment, `prefix.segment.domain` otherwise, and in both cases `subDomain + "." + domain` |
| `Config.EffectivePeriod` | main.go:46-48 | the period is never 0; a non-zero period is kept and 0 becomes 60 |
| `Config.Configure` | main.go:42-54 | fatal exactly when token, domain or prefix is empty; otherwise the period is defaulted and the hostname is `prefix[.segment].domain`; the stored sleep is the corrected duration, which equals the source's `SleepNanos` whenever `period` seconds fit in an int64 |
| `Config.SleepNanos` | main.go:122 | the sleep as the source computes it, with int64 wrap-around; it equals `period` seconds whenever that fits in an int64 |
| `Config.SleepNanosWrapsNegative` | main.go:122 | a period of 9223372037 s gives a negative duration; the largest uint64 gives -1 s |
| `Config.SleepNanosSaturating` | main.go:122 | the intended sleep: positive for a non-zero period, exactly `period` seconds when representable, otherwise the largest int64 |
| `Config.HostnameExamples` | main.go:50-54 | `home` + `example.com` gives `home.example.com`; with segment `lan` it gives `home.lan.example.com` |
| `Zones.SelectZone` | main.go:71-82 | returns the lowest index whose zone name is a suffix of the domain, with no earlier zone matching; fails with "no matching zone" exactly when no zone matches |
| `Zones.SelectedZoneCoversHost` | main.go:72 | a zone whose name is a suffix of the domain is also a suffix of the full hostname |
| `Resolver.ResolveFrom` | main.go:129-163 | the remembered service afterwards is unset or a listed service; on success it is the winning service and the result is its address; on failure it is unset; with a service remembered, no other service is attempted |
| `Resolver.FirstAnswering` | main.go:130-158 | independent reference: the index of the first service that answers with an address, and no earlier one does |
| `Resolver.UnsetTriesInOrder` | main.go:130-162 | with nothing remembered, services are tried in list order up to and including the first that answers; that service becomes remembered and its address is returned; if none answers, all were tried, the call fails and nothing is remembered |
| `Resolver.StickyDecides` | main.go:131-133 | with a service remembered, only that service is attempted; its answer decides the call; when it fails, the call fails and the remembered service is cleared, whatever the others would answer |
| `Resolver.SecondCallSucceeds` | main.go:155-162 | if some service answers, the call after any call succeeds, because a total failure clears the remembered service |
| `Resolver.NoFallbackWithinCall` | main.go:131-133 | concrete case on the two configured services: service 1 is remembered and fails while service 2 would answer; the call fails, tries only service 1 and clears the remembered service |
| `Resolver.IpResolver.constructor` | main.go:17-25 | a new resolver asks the two configured services, in their configured order, and remembers no service |
| `Resolver.IpResolver.GetCurrentIP` | main.go:126-163 | the result, the new `sticky` and the services attempted are those `ResolveFrom` gives for the old `sticky`; on success `sticky` is the service whose address was returned; on failure it is unset; it is always unset or one of the resolver's services |
| `Reconciler.CreateParams` | main.go:187-194 | the create carries the zone, `subDomain` as name, the address as content, type A and proxying off |
| `Reconciler.UpdateParams` | main.go:204-211 | the update carries the zone, the record's id, `subDomain` as name, the address as content and type A |
| `Reconciler.IsStale` | main.go:111 | a record holding the address, or holding nothing, is not stale; any other content is stale |
| `Reconciler.Reconcile` | main.go:84-121 | resolver failure issues no call and no sleep. Otherwise the list query uses `fullDomain`, type A and an empty comment. A list failure issues no write and no sleep. No records gives exactly one create (`subDomain`, the address, type A, not proxied) and sleeps only if the create succeeds. Records present: an update of the first record's id iff its content differs from the address and is not empty. At most one write per turn. The turn sleeps iff resolve and list succeed and a record existed or was created |
| `Reconciler.CreatePathNeverUpdates` | main.go:98-111 | a turn that creates issues no update, even when the created record holds other content, because the created record shadows `dnsRecord` |
| `Reconciler.TurnSettles` | main.go:106-121 | after one turn with successful calls, the first record holds the address or is empty; a turn against such records writes nothing and changes nothing |
| `Reconciler.SettledStaysQuiet` | main.go:84-121 | any number of turns with an unchanged address against settled records write nothing |
| `Reconciler.OnlyFirstTurnWrites` | main.go:84-121 | with an unchanged address and a provider accepting every call, n+1 turns issue only the first turn's writes, at most one |
| `Reconciler.EmptyContentNeverRepaired` | main.go:111 | a first record with empty content is never updated, for any address and any number of turns |
| `Daemon.Start` | main.go:40-82 | startup fails with the first failure met: missing configuration, client initialisation, zone listing, then no matching zone. On success the session holds the configured settings and the id of the first matching zone |
| `Daemon.RunCycle` | main.go:85-121 | one turn: the resolver's new state is the one `ResolveFrom` gives, and the calls issued are `Reconcile` applied to its result |

## Findings

| source | as written | input that shows it | evidently intended | confidence | as-written member | corrected member |
|---|---|---|---|---|---|---|
| main.go:122 | `time.Duration(period) * time.Second` converts the uint64 period to int64 and multiplies in int64; both steps wrap | PERIOD=9223372037 gives a negative duration; PERIOD beyond the uint64 range parses to 18446744073709551615, which gives -1 s. `time.Sleep` returns at once for either, so the loop never pauses | sleep `period` seconds, capped at the longest duration Go can represent | medium, not executed | `Config.SleepNanosWrapsNegative` | `Config.SleepNanosSaturating` |

`Config.Configure` stores the corrected duration in `Settings.sleepNanos`.

## Left out

- HTTP requests, body reading and JSON decoding in `getCurrentIP` (main.go:134-153) are replaced by the parameter `lookup`. It gives each service one of five outcomes: request, read or decode failure, no string `ip` field, or an address. `defer resp.Body.Close()` is resource handling and is not modelled.
- Cloudflare client construction and the `ListZones`, `ListDNSRecords`, `CreateDNSRecord` and `UpdateDNSRecord` calls (main.go:58-69, 165-223) are external library calls. Their parameters appear as `Query` and `Write` values, and their answers are inputs.
- Reading the environment and `strconv.ParseUint` (main.go:27-32) are left out. `Env.period` is the parsed value, which is 0 when PERIOD is unset or unparsable.
- The infinite `for` loop and `time.Sleep` (main.go:84, 122) are modelled as one turn per call. The turn reports whether it reaches the sleep. Real time and unbounded runs are not modelled.
- Config.Configure: stores the corrected sleep `SleepNanosSaturating(period)` in `Settings.sleepNanos`, not the wrapped value main.go:122 computes. The two agree whenever `period` seconds fit in an int64. Beyond that point the source's duration wraps around to an unrelated value. For 9223372037 seconds the value is negative and the source does not sleep, while the model's stored duration is the largest int64 (see "## Findings"). `Config.SleepNanos` keeps the as-written value.
- Console output and `os.Exit` codes are left out. Fatal startup conditions are `StartupError` values.
- Reconciler.Apply: the provider-side effect of a write is an assumption, not part of the source. The multi-turn lemmas (`TurnSettles`, `SettledStaysQuiet`, `OnlyFirstTurnWrites`, `EmptyContentNeverRepaired`) rely on it in two ways.
  - A record created under `subDomain` is returned by the next list for `fullDomain`. That holds when the zone name equals the domain. For a domain deeper than its zone, the provider would place `subDomain` elsewhere and the loop would create a record on every turn.
  - The list keeps its order after an update, so the updated record is still the first one returned. The source takes whatever order the provider gives. A provider that moved the updated record behind a duplicate with other content would draw a new update on each turn.
- DNS record fields other than id and content (name, TTL, proxy state) are not read by the decision logic and are not modelled.

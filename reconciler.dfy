/**
 * One turn of the updater's main loop (main.go:84-123) with the provider
 * calls it issues (main.go:165-223): resolve the address, list the
 * hostname's A records, create one when there is none, update the first
 * when its content is stale, then sleep. Every failure before the update
 * returns to the top of the loop without sleeping.
 */
module Reconciler {
  import opened Wrappers
  import opened Resolver

  const RecordType: string := "A"

  /** The fields of a provider DNS record the loop reads. */
  datatype Record = Record(id: string, content: string)

  /** `cloudflare.DNSRecord{}`: the value `dnsRecord` starts from. */
  const EmptyRecord: Record := Record("", "")

  /** What the loop is reconciling against: the zone and the two forms of the hostname. */
  datatype Target = Target(zoneId: string, subDomain: string, fullDomain: string)

  datatype ProviderError = ProviderError(message: string)

  /** The parameters of the `ListDNSRecords` call made by `getDNSRecord`. */
  datatype Query = Query(zoneId: string, name: string, rtype: string, comment: string)

  /** A write to the provider, with the parameters the source fills in. */
  datatype Write =
    | Create(zoneId: string, name: string, content: string, rtype: string, proxied: bool)
    | Update(zoneId: string, id: string, name: string, content: string, rtype: string)

  /** Which way one turn of the loop went; each is a distinct log line in the source. */
  datatype Path =
    | ResolveFailed | FetchFailed | CreateFailed
    | Created | Updated | UpdateFailed | Unchanged
  {
    /** The turns that end in `time.Sleep`; the others `continue` straight away. */
    predicate Sleeps() {
      this in {Created, Updated, UpdateFailed, Unchanged}
    }
  }

  /** The record list query, if one was made, the writes issued, and how the turn ended. */
  datatype Cycle = Cycle(query: Option<Query>, writes: seq<Write>, path: Path)

  /** `createDNSRecord`: name, content, type A, proxying off, in the zone (main.go:187-194). */
  function CreateParams(t: Target, ip: string): (w: Write)
    ensures w.Create? && w.zoneId == t.zoneId && w.name == t.subDomain && w.content == ip
    ensures w.rtype == RecordType && !w.proxied
  {
    Create(t.zoneId, t.subDomain, ip, RecordType, false)
  }

  /** `updateDNSRecord`: the record's id, name, new content and type A (main.go:204-211). */
  function UpdateParams(t: Target, id: string, ip: string): (w: Write)
    ensures w.Update? && w.zoneId == t.zoneId && w.id == id && w.name == t.subDomain && w.content == ip
    ensures w.rtype == RecordType
  {
    Update(t.zoneId, id, t.subDomain, ip, RecordType)
  }

  /** The update test at main.go:111: the content differs and is not empty. */
  predicate IsStale(rec: Record, ip: string): (stale: bool)
    ensures rec.content == ip ==> !stale
    ensures rec.content == "" ==> !stale
    ensures rec.content != ip && rec.content != "" ==> stale
  {
    ip != rec.content && rec.content != ""
  }

  /** The update step (main.go:110-121) for the record held in `dnsRecord`. */
  function UpdateStep(t: Target, dnsRecord: Record, ip: string, updated: Outcome<ProviderError>): (seq<Write>, Path)
  {
    if IsStale(dnsRecord, ip) then
      ([UpdateParams(t, dnsRecord.id, ip)], if updated.Pass? then Updated else UpdateFailed)
    else
      ([], Unchanged)
  }

  /**
   * One turn of the loop. `resolved` is what `getCurrentIP` returned,
   * `fetched` the answer to the record list, `created` and `updated` the
   * answers the create and update calls give if they are made.
   * On the create path the created record is bound to a new, shadowing
   * `dnsRecord` (main.go:100), so the update step sees the empty one.
   */
  function Reconcile(t: Target, resolved: Result<string, LookupError>, fetched: Result<seq<Record>, ProviderError>,
                     created: Result<Record, ProviderError>, updated: Outcome<ProviderError>): (c: Cycle)
    ensures resolved.Failure? ==> c == Cycle(None, [], ResolveFailed)
    ensures resolved.Success? ==> c.query == Some(Query(t.zoneId, t.fullDomain, RecordType, ""))
    ensures |c.writes| <= 1
    ensures c.path.Sleeps() <==> resolved.Success? && fetched.Success? && (fetched.value != [] || created.Success?)
    ensures resolved.Success? && fetched.Failure? ==> c.writes == [] && c.path == FetchFailed
    ensures resolved.Success? && fetched.Success? && fetched.value == [] ==>
              c.writes == [Create(t.zoneId, t.subDomain, resolved.value, RecordType, false)] &&
              c.path == (if created.Success? then Created else CreateFailed)
    ensures resolved.Success? && fetched.Success? && fetched.value != [] ==>
              (c.writes != [] <==> resolved.value != fetched.value[0].content && fetched.value[0].content != "")
    ensures resolved.Success? && fetched.Success? && fetched.value != [] && c.writes != [] ==>
              c.writes == [Update(t.zoneId, fetched.value[0].id, t.subDomain, resolved.value, RecordType)] &&
              c.path == (if updated.Pass? then Updated else UpdateFailed)
    ensures c.writes == [] && c.path.Sleeps() ==> c.path == Unchanged
  {
    match resolved
    case Failure(_) => Cycle(None, [], ResolveFailed)
    case Success(ip) =>
      var query := Some(Query(t.zoneId, t.fullDomain, RecordType, ""));
      match fetched
      case Failure(_) => Cycle(query, [], FetchFailed)
      case Success(records) =>
        var dnsRecord := EmptyRecord;
        if |records| == 0 then
          var create := CreateParams(t, ip);
          match created
          case Failure(_) => Cycle(query, [create], CreateFailed)
          case Success(_) =>
            var (writes, _) := UpdateStep(t, dnsRecord, ip, updated);
            Cycle(query, [create] + writes, Created)
        else
          var (writes, path) := UpdateStep(t, records[0], ip, updated);
          Cycle(query, writes, path)
  }

  /**
   * The effect of the shadowing: on the create path no update is issued,
   * even when the record the provider returns holds other content.
   */
  lemma CreatePathNeverUpdates(t: Target, ip: string, created: Record, updated: Outcome<ProviderError>)
    requires created.content != ip && created.content != ""
    ensures forall w | w in Reconcile(t, Success(ip), Success([]), Success(created), updated).writes :: w.Create?
  {
  }

  // ---- The provider's records for the hostname, as the list call returns them ----

  /**
   * The provider side of a write: a create adds a record with a fresh
   * identifier, an update replaces the content of the record with that id.
   * This assumes the record created under `subDomain` is one the list for
   * `fullDomain` returns, and that the list keeps its order after an update.
   */
  function Apply(store: seq<Record>, w: Write, newId: string): seq<Record> {
    match w
    case Create(_, _, content, _, _) => store + [Record(newId, content)]
    case Update(_, id, _, content, _) =>
      seq(|store|, i requires 0 <= i < |store| => if store[i].id == id then Record(id, content) else store[i])
  }

  function ApplyAll(store: seq<Record>, writes: seq<Write>, newId: string): seq<Record>
    decreases |writes|
  {
    if writes == [] then store else ApplyAll(Apply(store, writes[0], newId), writes[1..], newId)
  }

  /** One turn against `store` with an unchanged address and every provider call succeeding. */
  function Turn(t: Target, ip: string, store: seq<Record>, newId: string): Cycle {
    Reconcile(t, Success(ip), Success(store), Success(Record(newId, ip)), Pass)
  }

  /** The records after that turn's writes. */
  function After(t: Target, ip: string, store: seq<Record>, newId: string): seq<Record> {
    ApplyAll(store, Turn(t, ip, store, newId).writes, newId)
  }

  /** The writes `n` consecutive such turns issue. */
  function WritesOfTurns(t: Target, ip: string, store: seq<Record>, newId: string, n: nat): seq<Write>
    decreases n
  {
    if n == 0 then []
    else Turn(t, ip, store, newId).writes + WritesOfTurns(t, ip, After(t, ip, store, newId), newId, n - 1)
  }

  /** A store the loop leaves alone: its first record holds the address, or nothing. */
  predicate Settled(store: seq<Record>, ip: string) {
    store != [] && !IsStale(store[0], ip)
  }

  /**
   * Any one turn against a store whose first record is not stale leaves it settled.
   */
  lemma {:induction false} TurnSettles(t: Target, ip: string, store: seq<Record>, newId: string)
    ensures Settled(After(t, ip, store, newId), ip)
    ensures Settled(store, ip) ==> Turn(t, ip, store, newId).writes == [] && After(t, ip, store, newId) == store
  {
    var c := Turn(t, ip, store, newId);
    if store == [] {
      assert c.writes == [CreateParams(t, ip)];
      assert ApplyAll([], c.writes, newId) == ApplyAll([Record(newId, ip)], [], newId);
    } else if IsStale(store[0], ip) {
      var w := UpdateParams(t, store[0].id, ip);
      assert c.writes == [w];
      assert ApplyAll(store, c.writes, newId) == ApplyAll(Apply(store, w, newId), [], newId);
      assert Apply(store, w, newId)[0] == Record(store[0].id, ip);
    }
  }

  /**
   * Idempotence: turns with an unchanged address against a settled store
   * write nothing, however many there are.
   */
  lemma {:induction false} SettledStaysQuiet(t: Target, ip: string, store: seq<Record>, newId: string, n: nat)
    requires Settled(store, ip)
    ensures WritesOfTurns(t, ip, store, newId, n) == []
    decreases n
  {
    if n > 0 {
      TurnSettles(t, ip, store, newId);
      SettledStaysQuiet(t, ip, store, newId, n - 1);
    }
  }

  /**
   * With an unchanged address and a provider that accepts every call, all
   * writes happen in the first turn, and there is at most one.
   */
  lemma {:induction false} OnlyFirstTurnWrites(t: Target, ip: string, store: seq<Record>, newId: string, n: nat)
    ensures WritesOfTurns(t, ip, store, newId, n + 1) == Turn(t, ip, store, newId).writes
    ensures |WritesOfTurns(t, ip, store, newId, n + 1)| <= 1
  {
    TurnSettles(t, ip, store, newId);
    SettledStaysQuiet(t, ip, After(t, ip, store, newId), newId, n);
    assert WritesOfTurns(t, ip, store, newId, n + 1) ==
           Turn(t, ip, store, newId).writes + WritesOfTurns(t, ip, After(t, ip, store, newId), newId, n);
  }

  /**
   * A first record with empty content is never repaired: no turn writes,
   * whatever the address.
   */
  lemma EmptyContentNeverRepaired(t: Target, ip: string, store: seq<Record>, newId: string, n: nat)
    requires store != [] && store[0].content == ""
    ensures WritesOfTurns(t, ip, store, newId, n) == []
  {
    SettledStaysQuiet(t, ip, store, newId, n);
  }
}

/**
 * The public-IP resolver (main.go:17-25, 126-163): a fixed, ordered list of
 * lookup services and a remembered "last successful" service. When one is
 * remembered, every other service is skipped, so a failing remembered
 * service fails the whole call and is forgotten.
 */
module Resolver {
  import opened Wrappers

  const IpInfoApi1: string := "https://ipinfo.io"
  const IpInfoApi2: string := "https://api.ipify.org?format=json"
  /** The services in the order the resolver tries them. */
  const IpInfoApis: seq<string> := [IpInfoApi1, IpInfoApi2]

  /**
   * What one request to a service yields: the four ways it can fail
   * (request, body read, JSON decoding, no string "ip" field) or an address.
   */
  datatype Lookup = RequestFailed | ReadFailed | DecodeFailed | NoIpString | Address(ip: string)

  datatype LookupError = AllSourcesFailed

  /**
   * The effect of one call: its result, the remembered service afterwards
   * ("" when none) and the services a request was sent to, in order.
   */
  datatype Resolution = Resolution(result: Result<string, LookupError>, sticky: string, attempted: seq<string>)

  predicate Distinct(sources: seq<string>) {
    forall i, j | 0 <= i < j < |sources| :: sources[i] != sources[j]
  }

  /** `r` with `prefix` added in front of the services it records as attempted. */
  function AfterAttempts(prefix: seq<string>, r: Resolution): Resolution {
    r.(attempted := prefix + r.attempted)
  }

  /**
   * One call of the resolver over `sources` with remembered service
   * `sticky`; `lookup` gives each service's answer.
   */
  function ResolveFrom(sources: seq<string>, sticky: string, lookup: string -> Lookup): (r: Resolution)
    ensures r.sticky == "" || r.sticky in sources
    ensures r.result.Success? ==> r.sticky in sources && lookup(r.sticky) == Address(r.result.value)
    ensures r.result.Failure? ==> r.sticky == ""
    ensures forall s | s in r.attempted :: s in sources && (sticky == "" || s == sticky)
    ensures r.result.Success? ==> r.attempted != [] && r.attempted[|r.attempted| - 1] == r.sticky
    decreases |sources|
  {
    if sources == [] then
      Resolution(Failure(AllSourcesFailed), "", [])
    else if sticky != "" && sources[0] != sticky then
      ResolveFrom(sources[1..], sticky, lookup)
    else match lookup(sources[0])
      case Address(ip) => Resolution(Success(ip), sources[0], [sources[0]])
      case _ => AfterAttempts([sources[0]], ResolveFrom(sources[1..], sticky, lookup))
  }

  /** One call of the resolver over the configured services. */
  function Resolve(sticky: string, lookup: string -> Lookup): Resolution {
    ResolveFrom(IpInfoApis, sticky, lookup)
  }

  /** Reference: the index of the first service that answers with an address (|sources| if none). */
  function FirstAnswering(sources: seq<string>, lookup: string -> Lookup): (k: nat)
    ensures k <= |sources|
    ensures forall j | 0 <= j < k :: !lookup(sources[j]).Address?
    ensures k < |sources| ==> lookup(sources[k]).Address?
    decreases |sources|
  {
    if sources == [] || lookup(sources[0]).Address? then 0
    else 1 + FirstAnswering(sources[1..], lookup)
  }

  /**
   * With nothing remembered, the services are tried in list order and the
   * first to answer wins: it becomes the remembered service and its address
   * is returned; when none answers, every service was tried and the call fails.
   */
  lemma {:induction false} UnsetTriesInOrder(sources: seq<string>, lookup: string -> Lookup)
    ensures var k := FirstAnswering(sources, lookup);
            ResolveFrom(sources, "", lookup) ==
              if k < |sources| then Resolution(Success(lookup(sources[k]).ip), sources[k], sources[..k + 1])
              else Resolution(Failure(AllSourcesFailed), "", sources)
    decreases |sources|
  {
    if sources != [] && !lookup(sources[0]).Address? {
      UnsetTriesInOrder(sources[1..], lookup);
      var k := FirstAnswering(sources[1..], lookup);
      if k < |sources[1..]| {
        assert [sources[0]] + sources[1..][..k + 1] == sources[..k + 2];
      } else {
        assert [sources[0]] + sources[1..] == sources;
      }
    }
  }

  /**
   * With a service remembered, only that service is asked: the call
   * returns its address and keeps it remembered, or fails and forgets it,
   * whatever the other services would have answered.
   */
  lemma {:induction false} StickyDecides(sources: seq<string>, sticky: string, lookup: string -> Lookup)
    requires sticky != "" && Distinct(sources)
    ensures var r := ResolveFrom(sources, sticky, lookup);
            r.attempted == (if sticky in sources then [sticky] else []) &&
            (sticky in sources && lookup(sticky).Address? ==>
               r.result == Success(lookup(sticky).ip) && r.sticky == sticky) &&
            (!(sticky in sources && lookup(sticky).Address?) ==>
               r.result == Failure(AllSourcesFailed) && r.sticky == "")
    decreases |sources|
  {
    if sources != [] {
      assert Distinct(sources[1..]);
      StickyDecides(sources[1..], sticky, lookup);
      if sources[0] == sticky {
        assert sticky !in sources[1..] by {
          forall j | 0 <= j < |sources[1..]| ensures sources[1..][j] != sticky {
            assert sources[1..][j] == sources[j + 1];
          }
        }
      }
    }
  }

  /**
   * The two answers of a service may differ between calls only through the
   * oracle: with the same answers, a call following any call succeeds
   * whenever some service answers (a failure first forgets the remembered
   * service, a success remembers one that answers).
   */
  lemma {:induction false} SecondCallSucceeds(sources: seq<string>, sticky: string, lookup: string -> Lookup)
    requires "" !in sources && Distinct(sources)
    requires exists s | s in sources :: lookup(s).Address?
    ensures ResolveFrom(sources, ResolveFrom(sources, sticky, lookup).sticky, lookup).result.Success?
  {
    var first := ResolveFrom(sources, sticky, lookup);
    if first.sticky == "" {
      UnsetTriesInOrder(sources, lookup);
    } else {
      StickyDecides(sources, first.sticky, lookup);
    }
  }

  /**
   * The non-fallback rule on the configured services: the first service is
   * remembered and now fails while the second would answer, yet the call
   * fails and the remembered service is forgotten.
   */
  lemma NoFallbackWithinCall()
    ensures var lookup := (s: string) => if s == IpInfoApi2 then Address("203.0.113.7") else RequestFailed;
            Resolve(IpInfoApi1, lookup) == Resolution(Failure(AllSourcesFailed), "", [IpInfoApi1])
  {
    var lookup := (s: string) => if s == IpInfoApi2 then Address("203.0.113.7") else RequestFailed;
    StickyDecides(IpInfoApis, IpInfoApi1, lookup);
  }

  /** One turn of the loop in `getCurrentIP`, at index `i` of `sources`. */
  lemma ResolveStep(sources: seq<string>, i: nat, sticky: string, lookup: string -> Lookup)
    requires i < |sources|
    ensures sources[i..][1..] == sources[i + 1..]
    ensures sticky != "" && sources[i] != sticky ==>
              ResolveFrom(sources[i..], sticky, lookup) == ResolveFrom(sources[i + 1..], sticky, lookup)
    ensures !(sticky != "" && sources[i] != sticky) && lookup(sources[i]).Address? ==>
              ResolveFrom(sources[i..], sticky, lookup) ==
              Resolution(Success(lookup(sources[i]).ip), sources[i], [sources[i]])
    ensures !(sticky != "" && sources[i] != sticky) && !lookup(sources[i]).Address? ==>
              ResolveFrom(sources[i..], sticky, lookup) ==
              AfterAttempts([sources[i]], ResolveFrom(sources[i + 1..], sticky, lookup))
  {
    assert sources[i..][1..] == sources[i + 1..];
  }

  /**
   * The resolver object: the services it asks, in order (`ipInfoAPIs`),
   * and the remembered service (`lastSuccessfulAPI`, "" when none).
   */
  class IpResolver {
    const sources: seq<string>
    var sticky: string

    /** The remembered service is unset or one of the services. */
    ghost predicate Valid()
      reads this
    {
      sticky == "" || sticky in sources
    }

    /** A fresh process: the two configured services, nothing remembered yet. */
    constructor ()
      ensures Valid() && sources == IpInfoApis && sticky == ""
    {
      sources := IpInfoApis;
      sticky := "";
    }

    /**
     * `getCurrentIP`: the loop over the services with the skip rule. Only
     * `sticky` changes; `attempted` lists the services a request went to.
     */
    method GetCurrentIP(lookup: string -> Lookup) returns (r: Result<string, LookupError>, ghost attempted: seq<string>)
      modifies this
      ensures Resolution(r, sticky, attempted) == ResolveFrom(sources, old(sticky), lookup)
      ensures Valid()
      ensures r.Success? ==> lookup(sticky) == Address(r.value)
      ensures r.Failure? ==> sticky == ""
    {
      attempted := [];
      for i := 0 to |sources|
        invariant sticky == old(sticky)
        invariant ResolveFrom(sources, sticky, lookup) == AfterAttempts(attempted, ResolveFrom(sources[i..], sticky, lookup))
      {
        var api := sources[i];
        ResolveStep(sources, i, sticky, lookup);
        if sticky != "" && api != sticky {
          continue;
        }
        attempted := attempted + [api];
        // A failed request, body read or decoding, or a missing string "ip"
        // field: each moves on to the next service.
        match lookup(api) {
          case RequestFailed =>
            continue;
          case ReadFailed =>
            continue;
          case DecodeFailed =>
            continue;
          case NoIpString =>
          case Address(ip) =>
            sticky := api;
            r := Success(ip);
            return;
        }
      }
      sticky := "";
      r := Failure(AllSourcesFailed);
    }
  }
}

/**
 * Startup configuration of the updater: the required settings, the
 * default polling period and the managed hostname (main.go:27-54), and
 * the sleep duration the main loop derives from the period (main.go:122).
 */
module Config {
  import opened Wrappers

  /** Go's uint64, the type `strconv.ParseUint(…, 10, 64)` yields. */
  newtype u64 = x: int | 0 <= x < 0x1_0000_0000_0000_0000

  const MaxInt64: int := 0x7FFF_FFFF_FFFF_FFFF
  const NanosPerSecond: int := 1_000_000_000
  /** Period used when PERIOD is unset, unparsable or "0". */
  const DefaultPeriod: u64 := 60

  /**
   * The process environment after parsing: `period` is the value
   * `strconv.ParseUint` produced (0 when PERIOD is unset or unparsable).
   */
  datatype Env = Env(apiToken: string, domain: string, prefix: string, segment: string, period: u64)

  /** Everything that ends the process before the loop starts. */
  datatype StartupError = MissingConfig | ClientInitFailed | ZoneListFailed | NoMatchingZone

  /** The configuration the main loop runs with. */
  datatype Settings = Settings(period: u64, sleepNanos: int, subDomain: string, fullDomain: string)

  /** `subDomain`: the prefix, followed by "." and the segment when there is one. */
  function SubDomain(prefix: string, segment: string): (r: string)
    ensures segment == "" ==> r == prefix
    ensures segment != "" ==> r == prefix + "." + segment
    ensures |prefix| <= |r| && r[..|prefix|] == prefix
  {
    if segment != "" then prefix + "." + segment else prefix
  }

  /** `fullDomain`: the managed hostname, `prefix[.segment].domain`. */
  function FullDomain(prefix: string, segment: string, domain: string): (r: string)
    ensures segment == "" ==> r == prefix + "." + domain
    ensures segment != "" ==> r == prefix + "." + segment + "." + domain
    ensures r == SubDomain(prefix, segment) + "." + domain
  {
    SubDomain(prefix, segment) + "." + domain
  }

  /** The period the loop sleeps for, in seconds: 0 is replaced by 60. */
  function EffectivePeriod(period: u64): (r: u64)
    ensures r != 0
    ensures period != 0 ==> r == period
    ensures period == 0 ==> r == DefaultPeriod
  {
    if period == 0 then DefaultPeriod else period
  }

  /** Go's conversion of an integer to int64: two's-complement wrap-around. */
  function WrapInt64(v: int): (r: int)
    ensures -MaxInt64 - 1 <= r <= MaxInt64
    ensures (r - v) % 0x1_0000_0000_0000_0000 == 0
    ensures -MaxInt64 - 1 <= v <= MaxInt64 ==> r == v
  {
    (v + MaxInt64 + 1) % 0x1_0000_0000_0000_0000 - MaxInt64 - 1
  }

  /**
   * `time.Duration(period) * time.Second` as the source computes it: the
   * uint64 is converted to int64 and multiplied in int64, both wrapping.
   * `time.Sleep` returns at once for a duration that is not positive.
   */
  function SleepNanos(period: u64): (d: int)
    ensures -MaxInt64 - 1 <= d <= MaxInt64
    ensures period as int * NanosPerSecond <= MaxInt64 ==> d == period as int * NanosPerSecond
  {
    WrapInt64(WrapInt64(period as int) * NanosPerSecond)
  }

  /** The wrap-around makes a large period a negative duration, so the loop never sleeps. */
  lemma SleepNanosWrapsNegative()
    ensures SleepNanos(9_223_372_037) < 0
    ensures SleepNanos(0xFFFF_FFFF_FFFF_FFFF) == -NanosPerSecond
  {
  }

  /** The intended duration: `period` seconds, capped at the largest duration Go can represent. */
  function SleepNanosSaturating(period: u64): (d: int)
    ensures 0 <= d <= MaxInt64
    ensures period != 0 ==> d > 0
    ensures period as int * NanosPerSecond <= MaxInt64 ==> d == period as int * NanosPerSecond
    ensures period as int * NanosPerSecond > MaxInt64 ==> d == MaxInt64
    ensures d <= period as int * NanosPerSecond
  {
    if period as int <= MaxInt64 / NanosPerSecond then period as int * NanosPerSecond else MaxInt64
  }

  /**
   * The checks at the top of `main`: a missing token, domain or prefix is
   * fatal; otherwise the period is defaulted and the hostname composed.
   */
  function Configure(env: Env): (r: Result<Settings, StartupError>)
    ensures r.Failure? <==> env.apiToken == "" || env.domain == "" || env.prefix == ""
    ensures r.Failure? ==> r.error == MissingConfig
    ensures r.Success? ==> r.value.period != 0
    ensures r.Success? && env.period != 0 ==> r.value.period == env.period
    ensures r.Success? && env.period == 0 ==> r.value.period == DefaultPeriod
    ensures r.Success? ==> r.value.sleepNanos > 0
    ensures r.Success? && r.value.period as int * NanosPerSecond <= MaxInt64 ==>
              r.value.sleepNanos == SleepNanos(r.value.period)
    ensures r.Success? ==> r.value.fullDomain == r.value.subDomain + "." + env.domain
    ensures r.Success? && env.segment == "" ==> r.value.fullDomain == env.prefix + "." + env.domain
    ensures r.Success? && env.segment != "" ==>
              r.value.fullDomain == env.prefix + "." + env.segment + "." + env.domain
  {
    if env.apiToken == "" || env.domain == "" || env.prefix == "" then
      Failure(MissingConfig)
    else
      var period := EffectivePeriod(env.period);
      Success(Settings(period, SleepNanosSaturating(period),
                       SubDomain(env.prefix, env.segment),
                       FullDomain(env.prefix, env.segment, env.domain)))
  }

  /** Two hostnames: without a segment and with one. */
  lemma HostnameExamples()
    ensures FullDomain("home", "", "example.com") == "home.example.com"
    ensures FullDomain("home", "lan", "example.com") == "home.lan.example.com"
  {
  }
}

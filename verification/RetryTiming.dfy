/** relay.go's delays: Retry-After (section 10.2.3 of RFC 9110), retry back-off and timing defaults, in int64
    nanoseconds. */
module RetryTiming {
  import opened Options
  import opened Text
  import opened Numbers
  import opened RelayErrors

  const SECOND: int := 1_000_000_000
  const MINUTE: int := 60 * SECOND
  const MAX_INT64: int := 0x7FFF_FFFF_FFFF_FFFF
  const MAX_RETRY_DELAY: int := 5 * MINUTE

  predicate IsDuration(d: int) { -MAX_INT64 - 1 <= d <= MAX_INT64 }

  /** int64 wrap-around. */
  function Wrap(d: int): int {
    (d + MAX_INT64 + 1) % TWO_64 - MAX_INT64 - 1
  }

  /** header is the Retry-After text; date is how far ahead http.ParseTime places the trimmed text, where it parses. */
  function RetryAfter(header: string, date: Option<int>): int {
    var raw := TrimSpace(header);
    if raw == "" then 0
    else if Parsed(raw, 0x7FFF_FFFF).Some? then Wrap(Parsed(raw, 0x7FFF_FFFF).value * SECOND)
    else if date.Some? && date.value > 0 then date.value
    else 0
  }

  /** A parsed delay is a duration and not negative: delta-seconds in 31 bits are that many seconds, never altered by 64-bit
      wrap-around; anything else is a date, which counts while it lies ahead, or nothing. */
  lemma RetryAfterFits(header: string, date: Option<int>)
    requires date.Some? ==> IsDuration(date.value)
    ensures 0 <= RetryAfter(header, date) <= MAX_INT64
    ensures var raw := TrimSpace(header);
            RetryAfter(header, date) == if raw != "" && AllDigits(raw) && Value(raw) <= 0x7FFF_FFFF then Value(raw) * 1_000_000_000
                                        else if raw != "" && date.Some? && date.value > 0 then date.value
                                        else 0
  {
  }

  function RetryDelay(base: int, err: Err): int {
    var api := First(err, IsApi);
    if api.None? || !api.value.Api? || api.value.retryAfter <= base then base
    else if api.value.retryAfter > MAX_RETRY_DELAY then MAX_RETRY_DELAY
    else api.value.retryAfter
  }

  function Max(a: int, b: int): int { if a < b then b else a }

  function Min(a: int, b: int): int { if a < b then a else b }

  /** What relayRetryDelay documents: the base, raised to the advertised delay, which is bounded by five minutes. The
      code meets this exactly when the base is within the bound or no larger delay is advertised. Past the bound a
      relay asking for more than the base gets less than it. */
  lemma RetryDelayContract(base: int, err: Err)
    ensures var api := First(err, IsApi);
            var documented := if api.Some? && api.value.Api? then Max(base, Min(api.value.retryAfter, 300_000_000_000)) else base;
            RetryDelay(base, err) == documented
            <==> base <= 300_000_000_000 || !(api.Some? && api.value.Api? && api.value.retryAfter > base)
    ensures base <= MAX_RETRY_DELAY ==> base <= RetryDelay(base, err) <= MAX_RETRY_DELAY
    ensures Min(base, MAX_RETRY_DELAY) <= RetryDelay(base, err) <= Max(base, MAX_RETRY_DELAY)
  {
  }

  /** A relay asking for an hour makes a ten-minute base wait only five minutes. */
  lemma LongBaseIsShortened()
    ensures RetryDelay(10 * MINUTE, Api(429, "rate_limited", 60 * MINUTE)) == MAX_RETRY_DELAY < 10 * MINUTE
  {
    var e := Api(429, "rate_limited", 60 * MINUTE);
    assert First(e, IsApi) == Some(e);
  }

  /** Neither wrapping nor classification hides the advertised delay. */
  lemma DelaySurvivesWrapping(base: int, ws: seq<Wrapper>, e: Err, allowRefresh: bool)
    ensures RetryDelay(base, EncloseAll(ws, e)) == RetryDelay(base, e)
    ensures Classify(e, allowRefresh) != LeaseRefresh ==> RetryDelay(base, Classify(e, allowRefresh)) == RetryDelay(base, e)
  {
    EnclosedFirst(ws, e, IsApi);
  }

  // ----- the configured timings

  datatype Timings = Timings(leaseTTL: int, renewBefore: int, retryWait: int, dialTimeout: int, handshakeTimeout: int,
                             requestTimeout: int, idleTimeout: int, shutdownTimeout: int, discoveryPoll: int)

  const DEFAULT_TIMINGS: Timings :=
    Timings(2 * MINUTE, 30 * SECOND, 3 * SECOND, 15 * SECOND, 30 * SECOND, 30 * SECOND, 60 * SECOND, 5 * SECOND, 30 * SECOND)

  function OrDefault(d: int, default: int): int { if d <= 0 then default else d }

  function WithDefaults(t: Timings): Timings {
    var d := DEFAULT_TIMINGS;
    Timings(OrDefault(t.leaseTTL, d.leaseTTL), OrDefault(t.renewBefore, d.renewBefore), OrDefault(t.retryWait, d.retryWait),
            OrDefault(t.dialTimeout, d.dialTimeout), OrDefault(t.handshakeTimeout, d.handshakeTimeout),
            OrDefault(t.requestTimeout, d.requestTimeout), OrDefault(t.idleTimeout, d.idleTimeout),
            OrDefault(t.shutdownTimeout, d.shutdownTimeout), OrDefault(t.discoveryPoll, d.discoveryPoll))
  }

  predicate AllPositive(t: Timings) {
    && t.leaseTTL > 0 && t.renewBefore > 0 && t.retryWait > 0 && t.dialTimeout > 0 && t.handshakeTimeout > 0
    && t.requestTimeout > 0 && t.idleTimeout > 0 && t.shutdownTimeout > 0 && t.discoveryPoll > 0
  }

  /** Applying the defaults gives positive timings and changes nothing exactly when they were positive already; a field that
      was not takes its own default, in milliseconds below. */
  lemma DefaultsArePositive(t: Timings)
    ensures AllPositive(WithDefaults(t))
    ensures WithDefaults(t) == t <==> AllPositive(t)
    ensures var ms, d := 1_000_000, WithDefaults(t);
            && d.leaseTTL == (if t.leaseTTL > 0 then t.leaseTTL else 120_000 * ms)
            && d.renewBefore == (if t.renewBefore > 0 then t.renewBefore else 30_000 * ms)
            && d.retryWait == (if t.retryWait > 0 then t.retryWait else 3_000 * ms)
            && d.dialTimeout == (if t.dialTimeout > 0 then t.dialTimeout else 15_000 * ms)
            && d.handshakeTimeout == (if t.handshakeTimeout > 0 then t.handshakeTimeout else 30_000 * ms)
            && d.requestTimeout == (if t.requestTimeout > 0 then t.requestTimeout else 30_000 * ms)
            && d.idleTimeout == (if t.idleTimeout > 0 then t.idleTimeout else 60_000 * ms)
            && d.shutdownTimeout == (if t.shutdownTimeout > 0 then t.shutdownTimeout else 5_000 * ms)
            && d.discoveryPoll == (if t.discoveryPoll > 0 then t.discoveryPoll else 30_000 * ms)
  {
  }

  /** Go's division truncates towards zero. */
  function Truncated(a: int, b: int): int
    requires b > 0
  {
    if a >= 0 then a / b else -(-a / b)
  }

  function TtlSeconds(leaseTTL: int): int {
    var seconds := Truncated(Wrap(leaseTTL + SECOND - 1), SECOND);
    if seconds < 1 then 1 else seconds
  }

  /** The requested TTL is the smallest whole number of seconds that covers the configured one, except within the last
      second below the largest duration, where the sum wraps and one second is asked for. */
  lemma TtlCovers(leaseTTL: int)
    requires 0 < leaseTTL <= MAX_INT64
    ensures (TtlSeconds(leaseTTL) - 1) * SECOND < leaseTTL <= TtlSeconds(leaseTTL) * SECOND
            <==> leaseTTL + SECOND - 1 <= MAX_INT64
    ensures leaseTTL + SECOND - 1 > MAX_INT64 ==> TtlSeconds(leaseTTL) == 1
  {
    var sum := leaseTTL + SECOND - 1;
    if sum <= MAX_INT64 {
      assert Wrap(sum) == sum;
    } else {
      assert Wrap(sum) == sum - TWO_64 < 0;
    }
  }
}

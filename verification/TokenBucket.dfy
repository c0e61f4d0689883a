/**
 * The token bucket kept in Redis, over real-valued time in seconds.
 *
 * The key expires 120 s after its last write. `expires` switches that on or off, so that
 * the script as it runs can be compared with a bucket that is never forgotten.
 */
module TokenBucket {
  import opened Common

  datatype Bucket = Bucket(tokens: real, ts: real)

  datatype Event = Ask(time: real) | Drain(time: real)

  /** The limits of one key; a burst below one counts as one. */
  datatype Limits = Limits(rate: real, burst: real)

  const TTL: real := 120.0

  function Cap(l: Limits): (cap: real)
    ensures cap >= 1.0 && cap >= l.burst && (cap == 1.0 || cap == l.burst)
  {
    if l.burst < 1.0 then 1.0 else l.burst
  }

  /** What drips into the bucket in so many seconds. */
  function Refill(l: Limits, seconds: real): real {
    seconds * l.rate
  }

  /** What is stored under the key at `now`. */
  function Stored(k: Option<Bucket>, now: real, expires: bool): Option<Bucket> {
    if expires && k.Some? && now - k.value.ts >= TTL then None else k
  }

  /** The tokens after refilling, before any is taken. */
  function Level(k: Option<Bucket>, l: Limits, now: real): real {
    match k
    case None => Cap(l)
    case Some(b) =>
      var elapsed := if now < b.ts then 0.0 else now - b.ts;
      var refilled := b.tokens + Refill(l, elapsed);
      if refilled < Cap(l) then refilled else Cap(l)
  }

  predicate Allows(k: Option<Bucket>, l: Limits, now: real, expires: bool) {
    l.rate <= 0.0 || Level(Stored(k, now, expires), l, now) >= 1.0
  }

  function After(k: Option<Bucket>, l: Limits, e: Event, expires: bool): Option<Bucket> {
    match e
    case Drain(now) => Some(Bucket(0.0, now))
    case Ask(now) =>
      if l.rate <= 0.0 then Stored(k, now, expires)
      else
        var level := Level(Stored(k, now, expires), l, now);
        Some(Bucket(if level < 1.0 then level else level - 1.0, now))
  }

  function Ceil(x: real): (n: int)
    ensures n as real - 1.0 < x <= n as real
  {
    var f := x.Floor;
    if f as real == x then f else f + 1
  }

  /** The milliseconds a denied caller is told to wait. */
  function WaitMs(k: Option<Bucket>, l: Limits, now: real, expires: bool): int
    requires l.rate > 0.0
  {
    Ceil((1.0 - Level(Stored(k, now, expires), l, now)) / l.rate * 1000.0)
  }

  function Run(k: Option<Bucket>, l: Limits, events: seq<Event>, expires: bool): Option<Bucket>
    decreases |events|
  {
    if events == [] then k else Run(After(k, l, events[0], expires), l, events[1..], expires)
  }

  /** The requests allowed with a time stamp in [a, b]. */
  function Allowed(k: Option<Bucket>, l: Limits, events: seq<Event>, a: real, b: real, expires: bool): nat
    decreases |events|
  {
    if events == [] then 0
    else
      var e := events[0];
      (if e.Ask? && a <= e.time <= b && Allows(k, l, e.time, expires) then 1 else 0)
      + Allowed(After(k, l, e, expires), l, events[1..], a, b, expires)
  }

  /** A clock that never goes back, starting at `from`. */
  predicate Ordered(from: real, events: seq<Event>)
    decreases |events|
  {
    events == [] || (from <= events[0].time && Ordered(events[0].time, events[1..]))
  }

  predicate Valid(k: Option<Bucket>, l: Limits, now: real) {
    k.Some? ==> 0.0 <= k.value.tokens <= Cap(l) && k.value.ts <= now
  }

  /** The limiter as it is kept: one hash, read and rewritten by the script and by Drain. */
  class Key {
    var stored: Option<Bucket>

    constructor ()
      ensures stored == None
    {
      stored := None;
    }

    method AllowRate(l: Limits, now: real) returns (ok: bool, waitMs: int)
      modifies this
      ensures ok == Allows(old(stored), l, now, true)
      ensures stored == After(old(stored), l, Ask(now), true)
      ensures if ok then waitMs == 0 else l.rate > 0.0 && waitMs == WaitMs(old(stored), l, now, true) >= 1
    {
      if stored.Some? && now - stored.value.ts >= TTL {
        stored := None;
      }
      if l.rate <= 0.0 {
        return true, 0;
      }
      var burst := l.burst;
      if burst < 1.0 {
        burst := 1.0;
      }
      var tokens, ts := burst, now;
      if stored.Some? {
        tokens, ts := stored.value.tokens, stored.value.ts;
      }
      var elapsed := now - ts;
      if elapsed < 0.0 {
        elapsed := 0.0;
      }
      var refilled := tokens + elapsed * l.rate;
      assert stored.None? ==> refilled == burst;
      tokens := if refilled < burst then refilled else burst;
      assert tokens == Level(Stored(old(stored), now, true), l, now);
      if tokens < 1.0 {
        stored := Some(Bucket(tokens, now));
        var ms := Ceil((1.0 - tokens) / l.rate * 1000.0);
        return false, Max(1, ms);
      }
      stored := Some(Bucket(tokens - 1.0, now));
      return true, 0;
    }

    method DrainTokens(now: real)
      modifies this
      ensures forall l: Limits, expires: bool :: stored == After(old(stored), l, Drain(now), expires)
    {
      stored := Some(Bucket(0.0, now));
    }
  }
}

/** What the token bucket guarantees its callers. */
module RateLaws {
  import opened Common
  import opened TokenBucket

  // ---------------------------------------------------------------- the window bound

  lemma RefillSum(l: Limits, x: real, y: real)
    ensures Refill(l, x + y) == Refill(l, x) + Refill(l, y)
  {
  }

  lemma RefillOrder(l: Limits, x: real, y: real)
    requires l.rate > 0.0
    ensures x <= y ==> Refill(l, x) <= Refill(l, y)
    ensures x < y ==> Refill(l, x) < Refill(l, y)
    ensures Refill(l, 0.0) == 0.0
  {
    var d := y - x;
    assert y * l.rate == (x + d) * l.rate == x * l.rate + d * l.rate;
    if d > 0.0 {
      assert d * l.rate > 0.0;
    }
  }

  /** The level grows by at most `rate` each second. */
  lemma LevelGrows(k: Option<Bucket>, l: Limits, a: real, t: real)
    requires l.rate > 0.0 && a <= t && Valid(k, l, a)
    ensures 0.0 <= Level(k, l, t) <= Level(k, l, a) + Refill(l, t - a)
    ensures Level(k, l, t) <= Cap(l)
  {
    hide Refill;
    RefillOrder(l, 0.0, t - a);
    if k.Some? {
      var x, y := a - k.value.ts, t - a;
      assert t - k.value.ts == x + y;
      RefillSum(l, x, y);
      RefillOrder(l, 0.0, x);
    }
  }

  lemma AfterValid(k: Option<Bucket>, l: Limits, e: Event, from: real)
    requires l.rate > 0.0 && Valid(k, l, from) && from <= e.time
    ensures Valid(After(k, l, e, false), l, e.time)
  {
    hide Level, Cap, Refill;
    LevelGrows(k, l, from, e.time);
    CapAtLeastOne(l);
  }

  lemma CapAtLeastOne(l: Limits)
    ensures Cap(l) >= 1.0
  {
  }

  lemma AfterLevel(k: Option<Bucket>, l: Limits, e: Event)
    requires l.rate > 0.0 && Level(k, l, e.time) >= 0.0
    ensures Level(After(k, l, e, false), l, e.time) + (if e.Ask? && Allows(k, l, e.time, false) then 1.0
        else 0.0) <= Level(k, l, e.time)
  {
    hide Refill;
    RefillOrder(l, 0.0, 0.0);
  }

  /** From a bucket at level L at time `a`, at most L plus the refill is handed out up to `b`. */
  lemma {:induction false} AllowedFrom(k: Option<Bucket>, l: Limits, events: seq<Event>, a: real, b: real)
    requires l.rate > 0.0 && a <= b && Valid(k, l, a) && Ordered(a, events)
    ensures Allowed(k, l, events, a, b, false) as real <= Level(k, l, a) + Refill(l, b - a)
    decreases |events|
  {
    hide Level, After, Allows, Cap, Refill;
    LevelGrows(k, l, a, a);
    RefillOrder(l, 0.0, b - a);
    if events != [] {
      var e := events[0];
      AfterValid(k, l, e, a);
      LevelGrows(k, l, a, e.time);
      AfterLevel(k, l, e);
      if e.time <= b {
        AllowedSuffix(After(k, l, e, false), l, events[1..], a, e.time, b);
        AllowedFrom(After(k, l, e, false), l, events[1..], e.time, b);
        assert b - a == (e.time - a) + (b - e.time);
        RefillSum(l, e.time - a, b - e.time);
      } else {
        NoneAfter(After(k, l, e, false), l, events[1..], a, b, e.time, false);
      }
    }
  }

  /** Events from `t` on are counted alike whether the window starts at `a` or at `t`. */
  lemma {:induction false} AllowedSuffix(k: Option<Bucket>, l: Limits, events: seq<Event>, a: real, t: real, b: real)
    requires a <= t && Ordered(t, events)
    ensures Allowed(k, l, events, a, b, false) == Allowed(k, l, events, t, b, false)
    decreases |events|
  {
    if events != [] {
      OrderedWeaken(t, events[0].time, events[1..]);
      AllowedSuffix(After(k, l, events[0], false), l, events[1..], a, t, b);
    }
  }

  lemma OrderedWeaken(t: real, u: real, events: seq<Event>)
    requires t <= u && Ordered(u, events)
    ensures Ordered(t, events)
  {
  }

  lemma {:induction false} NoneAfter(k: Option<Bucket>, l: Limits, events: seq<Event>, a: real, b: real, t: real,
      expires: bool)
    requires b < t && Ordered(t, events)
    ensures Allowed(k, l, events, a, b, expires) == 0
    decreases |events|
  {
    if events != [] {
      NoneAfter(After(k, l, events[0], expires), l, events[1..], a, b, events[0].time, expires);
    }
  }

  /** A bucket that is never forgotten: in any window at most burst + rate x length, drains or not. */
  lemma {:induction false} WindowBound(k: Option<Bucket>, l: Limits, events: seq<Event>, from: real, a: real, b: real)
    requires l.rate > 0.0 && a <= b && Valid(k, l, from) && Ordered(from, events)
    ensures Allowed(k, l, events, a, b, false) as real <= Cap(l) + Refill(l, b - a)
    decreases |events|
  {
    hide Level, After, Allows, Cap, Refill;
    CapAtLeastOne(l);
    RefillOrder(l, 0.0, b - a);
    if events != [] {
      var e := events[0];
      if e.time < a {
        AfterValid(k, l, e, from);
        WindowBound(After(k, l, e, false), l, events[1..], e.time, a, b);
      } else if from <= a {
        AllowedFrom(k, l, events, a, b);
        LevelGrows(k, l, a, a);
      } else {
        AllowedSuffix(k, l, events, a, from, b);
        if from <= b {
          AllowedFrom(k, l, events, from, b);
          LevelGrows(k, l, from, from);
          RefillOrder(l, b - from, b - a);
        } else {
          NoneBeyond(k, l, events, from, b);
        }
      }
    }
  }

  lemma NoneBeyond(k: Option<Bucket>, l: Limits, events: seq<Event>, from: real, b: real)
    requires b < from && Ordered(from, events)
    ensures Allowed(k, l, events, from, b, false) == 0
  {
    NoneAfter(k, l, events, from, b, from, false);
  }

  // ---------------------------------------------------------------- the key's expiry

  /** The bucket fills within the time to live. */
  predicate FillsInTime(l: Limits) {
    Refill(l, TTL) >= Cap(l)
  }

  lemma ExpiryStep(k: Option<Bucket>, l: Limits, e: Event, from: real)
    requires l.rate > 0.0 && FillsInTime(l) && Valid(k, l, from) && from <= e.time
    ensures Level(Stored(k, e.time, true), l, e.time) == Level(k, l, e.time)
    ensures After(k, l, e, true) == After(k, l, e, false)
    ensures Allows(k, l, e.time, true) == Allows(k, l, e.time, false)
  {
    hide Refill;
    if k.Some? && e.time - k.value.ts >= TTL {
      RefillOrder(l, TTL, e.time - k.value.ts);
      assert Level(k, l, e.time) == Cap(l);
    }
  }

  lemma {:induction false} ExpiryUnobservable(k: Option<Bucket>, l: Limits, events: seq<Event>, from: real, a: real,
      b: real)
    requires l.rate > 0.0 && FillsInTime(l) && Valid(k, l, from) && Ordered(from, events)
    ensures Run(k, l, events, true) == Run(k, l, events, false)
    ensures Allowed(k, l, events, a, b, true) == Allowed(k, l, events, a, b, false)
    decreases |events|
  {
    if events != [] {
      ExpiryStep(k, l, events[0], from);
      AfterValid(k, l, events[0], from);
      ExpiryUnobservable(After(k, l, events[0], true), l, events[1..], events[0].time, a, b);
    }
  }

  /** Without that, two bursts an expiry apart exceed the bound. */
  function Asks(n: nat, t: real): seq<Event> {
    if n == 0 then [] else [Ask(t)] + Asks(n - 1, t)
  }

  lemma {:induction false} AsksTaken(k: Option<Bucket>, l: Limits, n: nat, t: real, a: real, b: real)
    requires l.rate > 0.0 && a <= t <= b && k.Some? && k.value.ts == t && n as real <= k.value.tokens <= Cap(l)
    ensures Run(k, l, Asks(n, t), true) == Some(Bucket(k.value.tokens - n as real, t))
    ensures Allowed(k, l, Asks(n, t), a, b, true) == n
    decreases n
  {
    if n > 0 {
      var k' := After(k, l, Ask(t), true);
      assert k' == Some(Bucket(k.value.tokens - 1.0, t));
      AsksTaken(k', l, n - 1, t, a, b);
      assert Asks(n, t)[1..] == Asks(n - 1, t);
    }
  }

  lemma {:induction false} Joined(k: Option<Bucket>, l: Limits, x: seq<Event>, y: seq<Event>, a: real, b: real)
    ensures Allowed(k, l, x + y, a, b, true) == Allowed(k, l, x, a, b, true) + Allowed(Run(k, l, x, true), l, y, a,
        b, true)
    ensures Run(k, l, x + y, true) == Run(Run(k, l, x, true), l, y, true)
    decreases |x|
  {
    hide After, Allows;
    if x == [] {
      assert x + y == y;
    } else {
      assert (x + y)[1..] == x[1..] + y;
      Joined(After(k, l, x[0], true), l, x[1..], y, a, b);
    }
  }

  /** Tokens that one burst can hand out, and how long its last one takes to drip in. */
  function Whole(l: Limits): int {
    Ceil(Cap(l))
  }

  function Drip(l: Limits): real
    requires l.rate > 0.0
  {
    (Whole(l) as real - Cap(l)) / l.rate
  }

  /** All whole tokens at once, and one more as soon as it is there. */
  function BurstAt(l: Limits, t: real): seq<Event>
    requires l.rate > 0.0
  {
    if Cap(l).Floor as real == Cap(l) then Asks(Cap(l).Floor, t)
    else Asks(Cap(l).Floor, t) + [Ask(t + Drip(l))]
  }

  lemma DripTime(l: Limits)
    requires l.rate > 0.0
    ensures Drip(l) >= 0.0 && Refill(l, Drip(l)) == Whole(l) as real - Cap(l)
    ensures Cap(l).Floor as real == Cap(l) ==> Drip(l) == 0.0 && Whole(l) == Cap(l).Floor
    ensures Cap(l).Floor as real != Cap(l) ==> Whole(l) == Cap(l).Floor + 1
  {
  }

  /** The first ask of a burst finds the bucket full: the key is missing, or has expired. */
  lemma FullStart(k: Option<Bucket>, l: Limits, t: real, a: real, b: real)
    requires l.rate > 0.0 && a <= t <= b && Stored(k, t, true).None?
    ensures var n := Cap(l).Floor;
      && Run(k, l, Asks(n, t), true) == Some(Bucket(Cap(l) - n as real, t))
      && Allowed(k, l, Asks(n, t), a, b, true) == n
  {
    var n := Cap(l).Floor;
    var k' := After(k, l, Ask(t), true);
    assert k' == Some(Bucket(Cap(l) - 1.0, t));
    AsksTaken(k', l, n - 1, t, a, b);
    assert Asks(n, t)[1..] == Asks(n - 1, t);
  }

  lemma DripAllowed(l: Limits, t: real)
    requires l.rate > 0.0 && Cap(l).Floor as real != Cap(l)
    ensures var k := Some(Bucket(Cap(l) - Cap(l).Floor as real, t));
      var u := t + Drip(l);
      Drip(l) < TTL ==> Allows(k, l, u, true) && After(k, l, Ask(u), true) == Some(Bucket(0.0, u))
  {
    DripTime(l);
    hide Refill;
    var k := Some(Bucket(Cap(l) - Cap(l).Floor as real, t));
    var u := t + Drip(l);
    assert u - t == Drip(l);
    assert Level(k, l, u) == 1.0;
  }

  lemma BurstTaken(k: Option<Bucket>, l: Limits, t: real, a: real, b: real)
    requires l.rate > 0.0 && a <= t && t + Drip(l) <= b && Stored(k, t, true).None? && Drip(l) < TTL
    ensures Allowed(k, l, BurstAt(l, t), a, b, true) == Whole(l)
    ensures Run(k, l, BurstAt(l, t), true) == Some(Bucket(0.0, t + Drip(l)))
  {
    DripTime(l);
    FullStart(k, l, t, a, b);
    if Cap(l).Floor as real != Cap(l) {
      var n, u := Cap(l).Floor, t + Drip(l);
      Joined(k, l, Asks(n, t), [Ask(u)], a, b);
      DripAllowed(l, t);
      OneAsk(Run(k, l, Asks(n, t), true), l, u, a, b);
    }
  }

  lemma OneAsk(k: Option<Bucket>, l: Limits, t: real, a: real, b: real)
    requires a <= t <= b
    ensures Allowed(k, l, [Ask(t)], a, b, true) == if Allows(k, l, t, true) then 1 else 0
    ensures Run(k, l, [Ask(t)], true) == After(k, l, Ask(t), true)
  {
    hide After, Allows;
    assert [Ask(t)][1..] == [];
  }

  lemma {:induction false} AsksOrdered(from: real, n: nat, t: real, rest: seq<Event>)
    requires from <= t && Ordered(t, rest)
    ensures Ordered(from, Asks(n, t) + rest)
    decreases n
  {
    if n == 0 {
      assert Asks(n, t) + rest == rest;
      OrderedWeaken(from, t, rest);
    } else {
      assert (Asks(n, t) + rest)[1..] == Asks(n - 1, t) + rest;
      AsksOrdered(t, n - 1, t, rest);
    }
  }

  lemma BurstOrdered(l: Limits, from: real, t: real, rest: seq<Event>)
    requires l.rate > 0.0 && from <= t && Ordered(t + Drip(l), rest)
    ensures Ordered(from, BurstAt(l, t) + rest)
  {
    DripTime(l);
    var n := Cap(l).Floor;
    if n as real == Cap(l) {
      AsksOrdered(from, n, t, rest);
    } else {
      var u := t + Drip(l);
      assert ([Ask(u)] + rest)[1..] == rest;
      AsksOrdered(from, n, t, [Ask(u)] + rest);
      assert BurstAt(l, t) + rest == Asks(n, t) + ([Ask(u)] + rest);
    }
  }

  /** Some run of requests from a missing key takes more than burst + rate x length in a window. */
  predicate Exceeds(l: Limits, events: seq<Event>, a: real, b: real) {
    a <= b && Ordered(a, events) && Allowed(None, l, events, a, b, true) as real > Cap(l) + Refill(l, b - a)
  }

  lemma TwoBursts(l: Limits)
    requires l.rate > 0.0 && !FillsInTime(l) && Drip(l) < TTL
    ensures var t := Drip(l) + TTL; Exceeds(l, BurstAt(l, 0.0) + BurstAt(l, t), 0.0, t + Drip(l))
  {
    hide Allowed, Run, BurstAt, Whole, Drip, Refill, Cap;
    var d := Drip(l);
    var t := d + TTL;
    var b := t + d;
    DripTime(l);
    BurstTaken(None, l, 0.0, 0.0, b);
    BurstTaken(Some(Bucket(0.0, 0.0 + d)), l, t, 0.0, b);
    Joined(None, l, BurstAt(l, 0.0), BurstAt(l, t), 0.0, b);
    BurstOrdered(l, t, t, []);
    assert BurstAt(l, t) + [] == BurstAt(l, t);
    OrderedWeaken(d, t, BurstAt(l, t));
    BurstOrdered(l, 0.0, 0.0, BurstAt(l, t));
    assert b - 0.0 == (d + TTL) + d;
    RefillSum(l, d + TTL, d);
    RefillSum(l, d, TTL);
  }

  lemma ThreeBursts(l: Limits)
    requires l.rate > 0.0 && Drip(l) >= TTL
    ensures var n := Cap(l).Floor;
      Exceeds(l, Asks(n, 0.0) + (Asks(n, TTL) + Asks(n, 2.0 * TTL)), 0.0, 2.0 * TTL)
  {
    hide Allowed, Run, Asks, Drip, Whole, Refill;
    var n, b := Cap(l).Floor, 2.0 * TTL;
    DripTime(l);
    FullStart(None, l, 0.0, 0.0, b);
    FullStart(Some(Bucket(Cap(l) - n as real, 0.0)), l, TTL, 0.0, b);
    FullStart(Some(Bucket(Cap(l) - n as real, TTL)), l, b, 0.0, b);
    Joined(None, l, Asks(n, 0.0), Asks(n, TTL) + Asks(n, b), 0.0, b);
    Joined(Some(Bucket(Cap(l) - n as real, 0.0)), l, Asks(n, TTL), Asks(n, b), 0.0, b);
    AsksOrdered(b, n, b, []);
    assert Asks(n, b) + [] == Asks(n, b);
    OrderedWeaken(TTL, b, Asks(n, b));
    AsksOrdered(TTL, n, TTL, Asks(n, b));
    OrderedWeaken(0.0, TTL, Asks(n, TTL) + Asks(n, b));
    AsksOrdered(0.0, n, 0.0, Asks(n, TTL) + Asks(n, b));
    RefillOrder(l, TTL, Drip(l));
    assert b - 0.0 == TTL + TTL;
    RefillSum(l, TTL, TTL);
    assert (n + n + n) as real > Cap(l) + Refill(l, b - 0.0);
    assert Allowed(None, l, Asks(n, 0.0) + (Asks(n, TTL) + Asks(n, b)), 0.0, b, true) == n + n + n;
  }

  /** The bound holds of the bucket as it runs exactly when a full refill fits in the time to live. */
  lemma WindowBoundExactly(l: Limits)
    requires l.rate > 0.0
    ensures (exists events, a, b :: Exceeds(l, events, a, b)) <==> !FillsInTime(l)
  {
    hide Allowed, Run, BurstAt, Asks, Refill, Cap, Drip;
    if FillsInTime(l) {
      forall events: seq<Event>, a, b ensures !Exceeds(l, events, a, b) {
        if a <= b && Ordered(a, events) {
          ExpiryUnobservable(None, l, events, a, a, b);
          WindowBound(None, l, events, a, a, b);
        }
      }
    } else if Drip(l) < TTL {
      TwoBursts(l);
    } else {
      ThreeBursts(l);
    }
  }

  // ---------------------------------------------------------------- the callers

  /** internal/outbox/worker.go: twice the rate, at least one. */
  function OutboxBurst(rate: real): real {
    var r := if rate < 0.1 then 0.1 else rate;
    if r * 2.0 < 1.0 then 1.0 else r * 2.0
  }

  /** internal/lookup/worker.go: the rate, at least one. */
  function LookupBurst(rate: real): real {
    if rate < 1.0 then 1.0 else rate
  }

  /** internal/http/client/messages.go: twice the rate, at least twenty. */
  function SendBurst(rate: real): real {
    if rate * 2.0 < 20.0 then 20.0 else rate * 2.0
  }

  predicate ValidRps(rate: real) {
    0.1 <= rate <= 100.0
  }

  /** For every rate the settings accept, both workers' keys are forgotten unnoticed. */
  lemma WorkersFillInTime(rate: real)
    requires ValidRps(rate)
    ensures FillsInTime(Limits(rate, OutboxBurst(rate)))
    ensures FillsInTime(Limits(rate, LookupBurst(rate)))
  {
  }

  /** internal/httpserver/apikey.go: a fixed rate and burst for every API key. */
  const PUBLIC_API: Limits := Limits(10.0, 20.0)

  lemma PublicApiFillsInTime()
    ensures FillsInTime(PUBLIC_API)
  {
  }

  /** The send endpoint's larger burst is not covered below one request in six seconds. */
  lemma SendEndpointFillsInTime(rate: real)
    requires ValidRps(rate)
    ensures FillsInTime(Limits(rate, SendBurst(rate))) <==> 6.0 * rate >= 1.0
  {
  }

  // ---------------------------------------------------------------- waiting

  /** `p` and `q` are `w` and `w - 1` milliseconds, in seconds. */
  lemma Milliseconds(l: Limits, missing: real, w: int, p: real, q: real)
    requires l.rate > 0.0 && missing > 0.0 && p == w as real / 1000.0 && q == (w - 1) as real / 1000.0
    requires w as real - 1.0 < missing / l.rate * 1000.0 <= w as real
    ensures w >= 1
    ensures Refill(l, p) >= missing > Refill(l, q)
  {
    var x := missing / l.rate;
    assert Refill(l, x) == missing;
    assert x > 0.0;
    Bracket(l, missing, x, p, q);
  }

  lemma Bracket(l: Limits, missing: real, x: real, p: real, q: real)
    requires l.rate > 0.0 && q < x <= p && Refill(l, x) == missing
    ensures Refill(l, p) >= missing > Refill(l, q)
  {
    hide Refill;
    RefillOrder(l, x, p);
    RefillOrder(l, q, x);
  }

  /** After a denial, the wait it returned is enough, if nobody else asks. */
  lemma WaitSuffices(k: Option<Bucket>, l: Limits, now: real)
    requires l.rate > 0.0 && !Allows(k, l, now, true)
    ensures var w := WaitMs(k, l, now, true);
      w >= 1 && Allows(After(k, l, Ask(now), true), l, now + w as real / 1000.0, true)
  {
    var w := WaitMs(k, l, now, true);
    var level := Level(Stored(k, now, true), l, now);
    var p := w as real / 1000.0;
    Milliseconds(l, 1.0 - level, w, p, (w - 1) as real / 1000.0);
    Waited(level, l, now, p);
  }

  lemma Waited(level: real, l: Limits, now: real, pause: real)
    requires l.rate > 0.0 && level < 1.0 && pause >= 0.0
    ensures Allows(Some(Bucket(level, now)), l, now + pause, true) <==> pause >= TTL || level + Refill(l, pause) >= 1.0
  {
    hide Refill;
    assert now + pause - now == pause;
  }

  /** And a millisecond less is not, exactly while the key has not expired by then. */
  lemma WaitIsNeeded(k: Option<Bucket>, l: Limits, now: real)
    requires l.rate > 0.0 && !Allows(k, l, now, true)
    ensures var w := WaitMs(k, l, now, true);
      Allows(After(k, l, Ask(now), true), l, now + (w - 1) as real / 1000.0, true) <==> w > 120000
  {
    var w := WaitMs(k, l, now, true);
    var level := Level(Stored(k, now, true), l, now);
    var q := (w - 1) as real / 1000.0;
    Milliseconds(l, 1.0 - level, w, w as real / 1000.0, q);
    Waited(level, l, now, q);
  }

  /** So for every rate the settings accept, the wait is exact to the millisecond. */
  lemma WaitIsExact(k: Option<Bucket>, l: Limits, now: real)
    requires ValidRps(l.rate) && !Allows(k, l, now, true) && Valid(k, l, now)
    ensures var w := WaitMs(k, l, now, true);
      && Allows(After(k, l, Ask(now), true), l, now + w as real / 1000.0, true)
      && !Allows(After(k, l, Ask(now), true), l, now + (w - 1) as real / 1000.0, true)
  {
    var w := WaitMs(k, l, now, true);
    WaitSuffices(k, l, now);
    WaitIsNeeded(k, l, now);
    var level := Level(Stored(k, now, true), l, now);
    LevelGrows(Stored(k, now, true), l, now, now);
    var q := (w - 1) as real / 1000.0;
    Milliseconds(l, 1.0 - level, w, w as real / 1000.0, q);
    if w > 120000 {
      RefillOrder(l, TTL, q);
      assert false;
    }
  }

  // ---------------------------------------------------------------- drains, bursts and no limit

  /** After a drain: denied until a whole token has dripped in, or the key has been forgotten. */
  lemma DrainDenies(k: Option<Bucket>, l: Limits, t: real, u: real)
    requires l.rate > 0.0 && t <= u
    ensures Allows(After(k, l, Drain(t), true), l, u, true) <==> u - t >= TTL || Refill(l, u - t) >= 1.0
    ensures Allows(After(k, l, Drain(t), false), l, u, false) <==> Refill(l, u - t) >= 1.0
  {
    hide Refill;
    CapAtLeastOne(l);
    RefillOrder(l, 0.0, u - t);
  }

  /** That is after exactly 1 / rate seconds, for every rate the settings accept. */
  lemma DrainPause(k: Option<Bucket>, l: Limits, t: real, u: real)
    requires ValidRps(l.rate) && t <= u
    ensures Allows(After(k, l, Drain(t), true), l, u, true) <==> u >= t + 1.0 / l.rate
  {
    var p := 1.0 / l.rate;
    assert Refill(l, p) == 1.0;
    DrainDenies(k, l, t, u);
    hide Refill;
    RefillOrder(l, p, u - t);
    RefillOrder(l, u - t, p);
    assert p <= 10.0 by {
      RefillTen(l);
      RefillOrder(l, 10.0, p);
    }
  }

  lemma RefillTen(l: Limits)
    requires ValidRps(l.rate)
    ensures Refill(l, 10.0) >= 1.0
  {
  }

  /** In a window that starts at a drain, only what drips in is handed out. */
  lemma DrainedWindow(k: Option<Bucket>, l: Limits, events: seq<Event>, t: real, b: real)
    requires l.rate > 0.0 && t <= b && Ordered(t, events)
    ensures Allowed(After(k, l, Drain(t), false), l, events, t, b, false) as real <= Refill(l, b - t)
    ensures FillsInTime(l) ==> Allowed(After(k, l, Drain(t), true), l, events, t, b, true) as real <= Refill(l, b - t)
  {
    hide Refill, Allowed;
    var d := Some(Bucket(0.0, t));
    CapAtLeastOne(l);
    RefillOrder(l, 0.0, 0.0);
    AllowedFrom(d, l, events, t, b);
    assert t - t == 0.0;
    assert Level(d, l, t) == 0.0;
    if FillsInTime(l) {
      ExpiryUnobservable(d, l, events, t, t, b);
    }
  }

  /** Without a positive rate there is no limit. */
  lemma NoLimit(k: Option<Bucket>, l: Limits, now: real, expires: bool)
    requires l.rate <= 0.0
    ensures Allows(k, l, now, expires)
    ensures After(k, l, Ask(now), false) == k
  {
  }

  lemma {:induction false} AsksDenied(k: Option<Bucket>, l: Limits, n: nat, t: real, a: real, b: real)
    requires l.rate > 0.0 && a <= t <= b && k.Some? && k.value.ts == t && 0.0 <= k.value.tokens < 1.0
    ensures Allowed(k, l, Asks(n, t), a, b, true) == 0
    decreases n
  {
    if n > 0 {
      assert After(k, l, Ask(t), true) == k;
      AsksDenied(k, l, n - 1, t, a, b);
      assert Asks(n, t)[1..] == Asks(n - 1, t);
    }
  }

  lemma {:induction false} AsksSplit(n: nat, m: nat, t: real)
    ensures Asks(n + m, t) == Asks(n, t) + Asks(m, t)
    decreases n
  {
    if n > 0 {
      AsksSplit(n - 1, m, t);
    }
  }

  /** A bucket nobody has used admits exactly its whole burst at once, at least one. */
  lemma BurstExactly(l: Limits, n: nat, t: real)
    requires l.rate > 0.0
    ensures var burst := (if l.burst < 1.0 then 1.0 else l.burst).Floor;
      Allowed(None, l, Asks(n, t), t, t, true) == if n <= burst then n else burst
  {
    hide Refill, Allowed, Run;
    var f := Cap(l).Floor;
    if n <= f {
      FullPart(l, n, t);
    } else {
      FullStart(None, l, t, t, t);
      AsksSplit(f, n - f, t);
      Joined(None, l, Asks(f, t), Asks(n - f, t), t, t);
      AsksDenied(Run(None, l, Asks(f, t), true), l, n - f, t, t, t);
    }
  }

  lemma FullPart(l: Limits, n: nat, t: real)
    requires l.rate > 0.0 && n as real <= Cap(l)
    ensures Allowed(None, l, Asks(n, t), t, t, true) == n
  {
    if n > 0 {
      var k' := After(None, l, Ask(t), true);
      assert k' == Some(Bucket(Cap(l) - 1.0, t));
      AsksTaken(k', l, n - 1, t, t, t);
      assert Asks(n, t)[1..] == Asks(n - 1, t);
    }
  }

  /** The bursts the callers ask for. */
  lemma CallersBursts(rate: real)
    requires ValidRps(rate)
    ensures OutboxBurst(rate) == if rate >= 0.5 then 2.0 * rate else 1.0
    ensures LookupBurst(rate) == if rate >= 1.0 then rate else 1.0
    ensures SendBurst(rate) == if rate >= 10.0 then 2.0 * rate else 20.0
  {
  }
}

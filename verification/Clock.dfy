/** 64-bit clock arithmetic of the idle sweep, and 32-bit arithmetic of the DNS refresh interval. */
module Clock {
  import opened Sockets

  const CLEANUP_INTERVAL := 1000

  /** `std::uint64_t` subtraction. */
  function Minus(a: int, b: int): int {
    (a - b) % U64
  }

  predicate IsTime(t: int) {
    0 <= t < U64
  }

  function TimeoutMs(seconds: nat): nat {
    seconds * 1000
  }

  /** The idle test of the sweep.  The source loads the activity stamp twice: `first` is the load
      in the guard, `second` the load in the subtraction. */
  predicate Idle(now: int, first: int, second: int, timeoutMs: int) {
    timeoutMs > 0 && now > first && Minus(now, second) > timeoutMs
  }

  /** The test of the sweep, on one read of the stamp: the session is closed. */
  predicate Due(marked: bool, lastActive: int, idleSeconds: nat, force: bool, now: int) {
    force || marked || Idle(now, lastActive, lastActive, TimeoutMs(idleSeconds))
  }

  /** What it means: forced, marked, or silent for longer than the timeout (never, if that is 0). */
  predicate Overdue(marked: bool, lastActive: int, idleSeconds: nat, force: bool, now: int) {
    force || marked || (idleSeconds > 0 && now - lastActive > 1000 * idleSeconds)
  }

  lemma DueIsOverdue(marked: bool, lastActive: int, idleSeconds: nat, force: bool, now: int)
    requires IsTime(now) && IsTime(lastActive)
    ensures Due(marked, lastActive, idleSeconds, force, now) <==> Overdue(marked, lastActive, idleSeconds, force, now)
  {
  }

  /** The test of MaybeCleanup; `last` is the time noted for the sweep before. */
  predicate Sweeps(last: int, now: int) {
    Minus(now, last) >= CLEANUP_INTERVAL
  }

  lemma NoWrap(now: int, last: int)
    requires IsTime(now) && 0 <= last <= now
    ensures Minus(now, last) == now - last
  {
  }

  /** When the stamp does not move between the two loads, the test says exactly that the session
      has been silent for longer than the timeout, with no wrap-around. */
  lemma IdleOnOneRead(now: int, last: int, timeoutMs: int)
    requires IsTime(now) && IsTime(last) && 0 <= timeoutMs
    ensures Idle(now, last, last, timeoutMs) <==> timeoutMs > 0 && now - last > timeoutMs
  {
  }

  /** A receiver may refresh the stamp between the two loads (stamps only grow).  Then the sweep
      can call a session idle that was refreshed a moment ago: exactly when the first load was
      before the sweep's clock reading, the second load after it, and the wrapped difference
      exceeds the timeout. */
  lemma IdleOnTwoReads(now: int, first: int, second: int, timeoutMs: int)
    requires IsTime(now) && IsTime(first) && IsTime(second) && first <= second && 0 <= timeoutMs
    ensures Idle(now, first, second, timeoutMs) && !Idle(now, second, second, timeoutMs)
       <==> timeoutMs > 0 && first < now < second && second - now < U64 - timeoutMs
  {
  }

  /** Such an eviction with the default timeout of 300 s: the stamp moved from 5 to 11 around a
      clock reading of 10. */
  lemma SplitReadEvictsFreshSession()
    ensures Idle(10, 5, 11, TimeoutMs(300)) && !Idle(10, 11, 11, TimeoutMs(300))
  {
  }

  // The refresh interval.

  const U32 := 0x1_0000_0000

  const TICK := 200

  function RefreshMinutes(configured: nat): nat {
    if configured == 0 then 10 else configured
  }

  /** The product is computed in 32 bits before it becomes a duration. */
  function IntervalMs(configured: nat): nat {
    (RefreshMinutes(configured) * 60 % U32) * 1000 % U32
  }

  /** The configured interval is honoured exactly for 1 to 71582 minutes (and 0, meaning 10);
      above that it is the residue modulo 2^32 of the milliseconds. */
  lemma IntervalIsExact(configured: nat)
    requires configured < U32
    ensures IntervalMs(configured) == RefreshMinutes(configured) * 60000 % U32
    ensures IntervalMs(configured) == RefreshMinutes(configured) * 60000 <==> configured <= 71582
  {
  }

  /** Ticks of the resolver loop between two refresh attempts. */
  function Period(interval: nat): nat {
    if interval == 0 then 1 else (interval + TICK - 1) / TICK
  }

  /** The resolver loop (src/net/forwarder.cpp:419-447) over `ticks` iterations that find the
      forwarder running after their sleep; `attempts` is the number of refreshes it starts. */
  method ResolverTicks(configured: nat, ticks: nat) returns (attempts: nat)
    requires configured < U32
    ensures attempts == ticks / Period(IntervalMs(configured))
    ensures 1 <= configured <= 71582 ==> attempts == ticks / (300 * configured)
    ensures configured == 0 ==> attempts == ticks / 3000
  {
    var interval := IntervalMs(configured);
    ghost var period := Period(interval);
    IntervalIsExact(configured);
    var elapsed := 0;
    attempts := 0;
    for tick := 0 to ticks
      invariant elapsed % TICK == 0 && 0 <= elapsed / TICK < period
      invariant tick == attempts * period + elapsed / TICK
    {
      elapsed := elapsed + TICK;
      if elapsed < interval {
        continue;
      }
      assert elapsed / TICK == period;
      elapsed := 0;
      attempts := attempts + 1;
    }
    Quotient(attempts, period, elapsed / TICK);
  }

  lemma Quotient(q: nat, d: nat, r: nat)
    requires r < d
    ensures (q * d + r) / d == q
  {
    var n := q * d + r;
    assert n == (n / d) * d + n % d;
    if n / d > q {
      MultiplyKeepsOrder(q + 1, n / d, d);
    } else if n / d < q {
      MultiplyKeepsOrder(n / d + 1, q, d);
    }
  }

  lemma MultiplyKeepsOrder(a: nat, b: nat, d: nat)
    requires a <= b
    ensures a * d <= b * d
  {
  }
}

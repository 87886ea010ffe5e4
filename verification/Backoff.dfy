/** The waiting times of withRetries (services/wallet/store.go), in int64 nanoseconds. */
module Backoff {

  /** 500ms and 10ms in nanoseconds. */
  const CAP := 500_000_000
  const STEP := 10_000_000

  /** 500ms for each of n waits. */
  function Bound(n: int): int {
    500_000_000 * n
  }

  function Pow2(n: nat): nat {
    if n == 0 then 1 else 2 * Pow2(n - 1)
  }

  /** Go's int64 arithmetic wraps around. */
  function Wrap(n: int): int {
    var m := n % 0x1_0000_0000_0000_0000;
    if m >= 0x8000_0000_0000_0000 then m - 0x1_0000_0000_0000_0000 else m
  }

  /** min(500*time.Millisecond, 10*time.Millisecond<<attempt) */
  function Limit(attempt: nat): int {
    LimitFor(Pow2(attempt))
  }

  function LimitFor(power: nat): int {
    var shifted := Wrap(STEP * power);
    if shifted < CAP then shifted else CAP
  }

  lemma {:induction false} Pow2Monotone(a: nat, b: nat)
    requires a <= b
    ensures Pow2(a) <= Pow2(b)
    decreases b
  {
    if a < b {
      Pow2Monotone(a, b - 1);
    }
  }

  lemma {:induction false} Pow2Adds(a: nat, b: nat)
    ensures Pow2(a + b) == Pow2(a) * Pow2(b)
    decreases a
  {
    if a > 0 {
      Pow2Adds(a - 1, b);
      assert Pow2(a + b) == 2 * Pow2(a - 1 + b);
    }
  }

  lemma Pow2Of39()
    ensures Pow2(39) == 0x80_0000_0000
  {
    assert Pow2(3) == 8;
    Pow2Adds(3, 3);
    Pow2Adds(6, 6);
    Pow2Adds(12, 12);
    Pow2Adds(24, 12);
    Pow2Adds(36, 3);
  }

  lemma LimitForSmall(power: nat)
    requires 1 <= power <= 0x80_0000_0000
    ensures LimitFor(power) == if STEP * power < CAP then STEP * power else CAP
    ensures 0 < LimitFor(power) <= CAP
  {
  }

  /** Up to attempt 39 the shift fits: the limit is 10ms times 2^attempt, capped at 500ms. */
  lemma LimitIsExponential(attempt: nat)
    requires attempt <= 39
    ensures Limit(attempt) == if 10_000_000 * Pow2(attempt) < 500_000_000 then 10_000_000 * Pow2(attempt) else 500_000_000
    ensures 0 < Limit(attempt) <= 500_000_000
  {
    Pow2Monotone(attempt, 39);
    Pow2Monotone(0, attempt);
    Pow2Of39();
    LimitForSmall(Pow2(attempt));
  }

  /** The limits never shrink. */
  lemma LimitGrows(a: nat, b: nat)
    requires a <= b <= 39
    ensures Limit(a) <= Limit(b)
  {
    Pow2Monotone(a, b);
    LimitIsExponential(a);
    LimitIsExponential(b);
  }

  /** The limits are 20, 40, 80, 160 and 320ms, and 500ms from the sixth attempt to the 39th. */
  lemma LimitValues(attempt: nat)
    requires 1 <= attempt <= 39
    ensures Limit(1) == 20_000_000 && Limit(2) == 40_000_000 && Limit(3) == 80_000_000
    ensures Limit(4) == 160_000_000 && Limit(5) == 320_000_000
    ensures attempt >= 6 ==> Limit(attempt) == 500_000_000
  {
    assert Pow2(1) == 2 && Pow2(2) == 4 && Pow2(3) == 8;
    assert Pow2(4) == 16 && Pow2(5) == 32 && Pow2(6) == 64;
    LimitForSmall(2);
    LimitForSmall(4);
    LimitForSmall(8);
    LimitForSmall(16);
    LimitForSmall(32);
    LimitForSmall(64);
    if attempt >= 6 {
      LimitGrows(6, attempt);
      LimitIsExponential(attempt);
    }
  }

  /** At attempt 40 the shift overflows into the sign bit. */
  lemma LimitOf40()
    ensures Limit(40) < 0
  {
    Pow2Of39();
    assert Pow2(40) == 0x100_0000_0000;
  }

  /** Every wait of a call has a positive limit, so that rand.N accepts it, if and only if
      maxRetries is at most 39. */
  lemma BackoffSafeIff(maxRetries: int)
    ensures (forall attempt :: 1 <= attempt <= maxRetries ==> Limit(attempt) > 0) <==> maxRetries <= 39
  {
    if maxRetries <= 39 {
      forall attempt | 1 <= attempt <= maxRetries ensures Limit(attempt) > 0 {
        LimitIsExponential(attempt);
      }
    } else {
      LimitOf40();
    }
  }

  /** rand.N(limit): a random wait below the limit; it panics when the limit is not positive. */
  method DrawWait(attempt: nat, random: nat) returns (wait: nat, panicked: bool)
    ensures panicked <==> Limit(attempt) <= 0
    ensures !panicked ==> wait < Limit(attempt)
    ensures random < Limit(attempt) ==> wait == random
    ensures 1 <= attempt <= 39 ==> !panicked
  {
    if 1 <= attempt <= 39 {
      LimitIsExponential(attempt);
    }
    wait, panicked := Draw(Limit(attempt), random);
  }

  method Draw(limit: int, random: nat) returns (wait: nat, panicked: bool)
    ensures panicked <==> limit <= 0
    ensures !panicked ==> wait < limit
    ensures random < limit ==> wait == random
  {
    if limit <= 0 {
      return 0, true;
    }
    return random % limit, false;
  }

  function Total(waits: seq<nat>): nat {
    if waits == [] then 0 else Total(waits[..|waits| - 1]) + waits[|waits| - 1]
  }

  /** The random waits of attempts 1, 2, ... of one call, none of which panicked. */
  ghost predicate Drawn(waits: seq<nat>) {
    forall i :: 0 <= i < |waits| ==> waits[i] < Limit(i + 1)
  }

  lemma DrawnSnoc(waits: seq<nat>, wait: nat)
    requires Drawn(waits) && wait < Limit(|waits| + 1)
    ensures Drawn(waits + [wait]) && Total(waits + [wait]) == Total(waits) + wait
  {
    assert (waits + [wait])[..|waits|] == waits;
  }

  lemma LimitAtMostCap(attempt: nat)
    ensures Limit(attempt) <= CAP
  {
  }

  lemma AtMost39(waits: seq<nat>)
    requires Drawn(waits)
    ensures |waits| <= 39
  {
    LimitOf40();
    if |waits| > 39 {
      DrawnIsPositive(waits, 39);
    }
  }

  lemma DrawnIsPositive(waits: seq<nat>, i: nat)
    requires Drawn(waits) && i < |waits|
    ensures Limit(i + 1) > 0
  {
    assert waits[i] < Limit(i + 1);
  }

  lemma {:induction false} TotalOfCapped(waits: seq<nat>)
    requires forall i :: 0 <= i < |waits| ==> waits[i] < CAP
    ensures Total(waits) <= Bound(|waits|) && (waits != [] ==> Total(waits) < Bound(|waits|))
    decreases |waits|
  {
    if waits != [] {
      TotalOfCapped(waits[..|waits| - 1]);
    }
  }

  /** There are at most 39 of them, and together they stay below 500ms each. */
  lemma TotalWaitIsBounded(waits: seq<nat>)
    requires Drawn(waits)
    ensures |waits| <= 39
    ensures Total(waits) <= Bound(|waits|) && (waits != [] ==> Total(waits) < Bound(|waits|))
  {
    AtMost39(waits);
    forall i | 0 <= i < |waits| ensures waits[i] < CAP {
      LimitAtMostCap(i + 1);
    }
    TotalOfCapped(waits);
  }

  lemma TotalIsBelow(waits: seq<nat>, maxRetries: int)
    requires Drawn(waits) && |waits| <= maxRetries && 1 <= maxRetries
    ensures Total(waits) < Bound(maxRetries)
  {
    TotalWaitIsBounded(waits);
  }
}

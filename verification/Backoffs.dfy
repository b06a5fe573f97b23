/** fetchWithRetry's waits (internal/scheduler/scheduler.go): a time.Duration of one second, doubled
    after every wait in int64 nanoseconds. */
module Backoffs {
  import opened Powers
  import opened Durations

  const TWO_63: int := 0x8000_0000_0000_0000
  const TWO_64: int := 0x1_0000_0000_0000_0000

  /** int64 wrap-around. */
  function Wrap64(n: int): (r: int)
    ensures -TWO_63 <= r < TWO_63
    ensures -TWO_63 <= n < TWO_63 ==> r == n
  {
    var m := n % TWO_64;
    if m < TWO_63 then m else m - TWO_64
  }

  /** The wait after the k-th failed attempt: a second, doubled k times. */
  function Backoff(k: nat): int {
    if k == 0 then SECOND else Wrap64(2 * Backoff(k - 1))
  }

  lemma Pow2Table()
    ensures Pow2(33) == 8_589_934_592 && Pow2(34) == 17_179_869_184
  {
    assert Pow2(4) == 16;
    assert Pow2(8) == 256;
    assert Pow2(12) == 4096;
    assert Pow2(16) == 65_536;
    assert Pow2(20) == 1_048_576;
    assert Pow2(24) == 16_777_216;
    assert Pow2(28) == 268_435_456;
    assert Pow2(32) == 4_294_967_296;
    assert Pow2(33) == 8_589_934_592;
  }

  lemma {:induction false} BackoffDoubles(k: nat)
    requires k <= 33
    ensures Backoff(k) == Pow2(k) * SECOND < TWO_63
  {
    Pow2Table();
    Pow2Monotone(k, 33);
    if k > 0 {
      BackoffDoubles(k - 1);
    }
  }

  /** The k-th wait is 2^k seconds exactly as long as int64 nanoseconds hold it: for k up to 33. */
  lemma BackoffExactIff(k: nat)
    ensures Backoff(k) == Pow2(k) * SECOND <==> k <= 33
  {
    if k <= 33 {
      BackoffDoubles(k);
    } else {
      Pow2Table();
      Pow2Monotone(34, k);
    }
  }

  /** No doubling overflows exactly when there are at most 33 of them. */
  lemma NoOverflowIff(maxRetries: nat)
    ensures (forall k | 0 <= k < maxRetries :: Wrap64(2 * Backoff(k)) == 2 * Backoff(k)) <==> maxRetries <= 33
  {
    forall k | 0 <= k < maxRetries && k < 33
      ensures Wrap64(2 * Backoff(k)) == 2 * Backoff(k)
    {
      BackoffDoubles(k);
      BackoffDoubles(k + 1);
    }
    if maxRetries > 33 {
      BackoffDoubles(33);
      Pow2Table();
      assert Wrap64(2 * Backoff(33)) != 2 * Backoff(33);
    }
  }

  /** All the waits before attempt `k`, a negative one firing at once. */
  function TotalWait(k: nat): int {
    if k == 0 then 0 else TotalWait(k - 1) + Wait(Backoff(k - 1))
  }

  function Wait(d: int): (r: int) {
    if d < 0 then 0 else d
  }

  /** Exactly 2^k - 1 seconds have been waited before attempt `k`, as long as no doubling
      overflowed. */
  lemma {:induction false} TotalWaitExact(k: nat)
    requires k <= 34
    ensures TotalWait(k) == (Pow2(k) - 1) * SECOND
  {
    if k > 0 {
      TotalWaitExact(k - 1);
      BackoffDoubles(k - 1);
    }
  }

  /** From the 35th wait on the total falls short, and stays short. */
  lemma {:induction false} TotalWaitShort(k: nat)
    requires k >= 35
    ensures TotalWait(k) < (Pow2(k) - 1) * SECOND
  {
    Pow2Table();
    if k == 35 {
      TotalWaitExact(34);
      BackoffDoubles(33);
      assert Backoff(34) == Wrap64(2 * Backoff(33));
    } else {
      TotalWaitShort(k - 1);
      Pow2Monotone(34, k - 1);
      assert Backoff(k - 1) < TWO_63;
    }
  }

  lemma TotalWaitExactIff(k: nat)
    ensures TotalWait(k) == (Pow2(k) - 1) * SECOND <==> k <= 34
  {
    if k <= 34 {
      TotalWaitExact(k);
    } else {
      TotalWaitShort(k);
    }
  }
}

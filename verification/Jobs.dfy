/** The job entity: statuses, the transition table the cancel request consults,
    and the retry delay with Go's 64-bit duration arithmetic. */
module Jobs {

  datatype Option<+T> = None | Some(value: T)

  // UUIDs, reduced to what the system uses them for: names that can be compared.
  type JobId = nat

  datatype Status = Pending | Scheduled | Running | Completed | Failed | Retrying | Dead | Cancelled

  // Times are nanoseconds on one clock. The payload and the error text are not modelled.
  datatype Row = Row(queue: string, jobType: string, status: Status, maxRetries: int, retryCount: int,
                     runAt: Option<int>, startedAt: Option<int>, completedAt: Option<int>, createdAt: int)

  function AllowedTransitions(from: Status): seq<Status> {
    match from
    case Pending => [Running, Scheduled, Cancelled]
    case Scheduled => [Running, Cancelled]
    case Running => [Completed, Failed, Cancelled]
    case Failed => [Retrying, Dead]
    case Retrying => [Running]
    case Dead => [Pending]
    case Completed => []
    case Cancelled => []
  }

  predicate CanTransitionTo(from: Status, target: Status) {
    target in AllowedTransitions(from)
  }

  // The statuses a cancel request accepts.
  lemma CancellableStatuses(s: Status)
    ensures CanTransitionTo(s, Cancelled) <==> s in {Pending, Scheduled, Running}
  {
  }

  // A live row still expects to be delivered to a worker.
  predicate Live(s: Status) {
    s == Pending || s == Scheduled || s == Retrying
  }

  // Rows that no request and no loop touches again once nothing in flight knows them.
  predicate Settled(s: Status) {
    s == Completed || s == Cancelled || s == Failed
  }

  const SECOND: int := 1_000_000_000
  const TWO64: int := 0x1_0000_0000_0000_0000
  const TWO63: int := 0x8000_0000_0000_0000

  // time.Time.Unix: whole seconds, rounded down.
  function Unix(t: int): (sec: int)
    ensures sec * SECOND <= t < (sec + 1) * SECOND
  {
    t / SECOND
  }

  function Pow2(n: nat): (r: nat)
    ensures r >= 1
  {
    if n == 0 then 1 else 2 * Pow2(n - 1)
  }

  // Two's-complement wrap-around of a 64-bit signed integer.
  function Wrap64(x: int): (r: int)
    ensures -TWO63 <= r < TWO63
    ensures -TWO63 <= x < TWO63 ==> r == x
    ensures (r - x) % TWO64 == 0
  {
    (x + TWO63) % TWO64 - TWO63
  }

  /** The duration handed to time.Add. Go leaves the conversion of a float at or above 2^63 to the
      platform; `platform` is whatever that conversion yields. */
  function Backoff(retryCount: nat, platform: int): int {
    if retryCount < 63 then Wrap64(Pow2(retryCount) * SECOND) else Wrap64(Wrap64(platform) * SECOND)
  }

  lemma {:induction false} Pow2Monotone(m: nat, n: nat)
    requires m <= n
    ensures Pow2(m) <= Pow2(n)
  {
    if m < n { Pow2Monotone(m, n - 1); }
  }

  lemma Pow2At33()
    ensures Pow2(33) == 8_589_934_592
    ensures Pow2(34) == 17_179_869_184
  {
    assert Pow2(4) == 16;
    assert Pow2(8) == 256;
    assert Pow2(12) == 4096;
    assert Pow2(16) == 65536;
    assert Pow2(20) == 1048576;
    assert Pow2(24) == 16777216;
    assert Pow2(28) == 268435456;
    assert Pow2(32) == 4294967296;
  }

  // The product is the promised 2^n seconds exactly up to n = 33; from 34 on it has wrapped.
  lemma BackoffExact(n: nat, platform: int)
    requires n < 63
    ensures Backoff(n, platform) == Pow2(n) * SECOND <==> n <= 33
  {
    Pow2At33();
    if n <= 33 {
      Pow2Monotone(n, 33);
    } else {
      Pow2Monotone(34, n);
      assert Pow2(n) * SECOND >= TWO63;
    }
  }

  // Below 63 the delay is the 64-bit remainder of the product; from 55 on nothing of it is left.
  lemma BackoffWraps(n: nat, platform: int)
    requires n < 63
    ensures -TWO63 <= Backoff(n, platform) < TWO63 && (Backoff(n, platform) - Pow2(n) * SECOND) % TWO64 == 0
    ensures n >= 55 ==> Backoff(n, platform) == 0
  {
    if n >= 55 {
      Pow2Splits(n - 55, 55);
      Pow2At55();
      assert Pow2(n) * SECOND == Pow2(n - 55) * 1_953_125 * TWO64;
      WrapsToZero(Pow2(n - 55) * 1_953_125);
    }
  }

  lemma WrapsToZero(k: nat)
    ensures Wrap64(k * TWO64) == 0
  {
    assert k * TWO64 + TWO63 == TWO64 * k + TWO63;
    assert (k * TWO64 + TWO63) % TWO64 == TWO63;
  }

  lemma {:induction false} Pow2Splits(m: nat, n: nat)
    ensures Pow2(m + n) == Pow2(m) * Pow2(n)
  {
    if n == 0 {
    } else {
      Pow2Splits(m, n - 1);
    }
  }

  lemma Pow2At55()
    ensures Pow2(55) * SECOND == 1_953_125 * TWO64
  {
    Pow2At33();
    Pow2Splits(22, 33);
    assert Pow2(4) == 16;
    assert Pow2(8) == 256;
    assert Pow2(12) == 4096;
    assert Pow2(16) == 65536;
    assert Pow2(20) == 1048576;
    assert Pow2(22) == 4194304;
  }

  // Seconds asked for by the retries numbered first .. first + count - 1.
  function DelaySum(first: nat, count: nat): nat {
    if count == 0 then 0 else DelaySum(first, count - 1) + Pow2(first + count - 1)
  }

  lemma {:induction false} DelaySumClosed(first: nat, count: nat)
    ensures DelaySum(first, count) == Pow2(first + count) - Pow2(first)
  {
    if count == 0 {
    } else {
      DelaySumClosed(first, count - 1);
    }
  }
}

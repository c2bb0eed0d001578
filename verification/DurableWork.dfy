/** What Jobs and the Outbox share: error codes, retry policy, database time, leases, attempts. */
module DurableWork {
  import opened Texts

  const MAX_SAFE_INTEGER := 9007199254740991

  datatype ErrorCode =
    | AlreadyExists | DatabaseTimeRegression | IdempotencyConflict | InvalidArgument | InvalidState
    | LeaseExpired | LeaseMismatch | NotFound | SequenceConflict

  datatype Result<+T> = Ok(value: T) | Err(code: ErrorCode)

  datatype RetryPolicy = RetryPolicy(
    maximumAttemptsPerCycle: int, initialBackoffMs: int, maximumBackoffMs: int, leaseDurationMs: int)
  {
    /** `assertRetryPolicy` */
    predicate Valid()
    {
      1 <= maximumAttemptsPerCycle <= MAX_SAFE_INTEGER &&
      0 < initialBackoffMs <= maximumBackoffMs <= MAX_SAFE_INTEGER &&
      0 < leaseDurationMs <= MAX_SAFE_INTEGER
    }
  }

  datatype Category = Dependency | Internal | Lease | Permanent | Throttled
  datatype FailureCause = FailureCause(code: string, category: Category, retryable: bool, fingerprint: string)

  datatype WorkKind = JobWork | OutboxWork
  datatype LeaseHandle = LeaseHandle(
    workKind: WorkKind, workId: string, attemptId: string, workerId: string, fencingToken: int)
  datatype ActiveLease = ActiveLease(handle: LeaseHandle, acquiredAt: int, heartbeatAt: int, expiresAt: int)

  datatype AttemptOutcome = Active | Succeeded | RetryScheduled | DeadLettered | Expired | Cancelled

  predicate IsTime(t: int)
  {
    0 <= t <= MAX_SAFE_INTEGER
  }

  function AddDuration(now: int, duration: int): Result<int>
  {
    if IsTime(now) && IsTime(duration) && now + duration <= MAX_SAFE_INTEGER then Ok(now + duration)
    else Err(InvalidArgument)
  }

  function Pow2(n: nat): (r: int)
    ensures r >= 1
  {
    if n == 0 then 1 else 2 * Pow2(n - 1)
  }

  function Min(a: int, b: int): int
  {
    if a <= b then a else b
  }

  /** `retryBackoffMs`: doubling from the initial backoff, capped. */
  function Backoff(attempt: int, p: RetryPolicy): Result<int>
  {
    if !(1 <= attempt <= MAX_SAFE_INTEGER) then Err(InvalidArgument)
    else Ok(Min(p.maximumBackoffMs, p.initialBackoffMs * Pow2(Min(attempt - 1, 52))))
  }

  lemma BackoffBounds(attempt: int, p: RetryPolicy)
    requires p.Valid() && 1 <= attempt <= MAX_SAFE_INTEGER
    ensures Backoff(attempt, p).Ok?
    ensures p.initialBackoffMs <= Backoff(attempt, p).value <= p.maximumBackoffMs
  {
    var k := Pow2(Min(attempt - 1, 52));
    assert p.initialBackoffMs * k >= p.initialBackoffMs;
  }

  /** Each retry waits twice as long as the one before, up to the maximum. */
  lemma BackoffDoubles(attempt: int, p: RetryPolicy)
    requires p.Valid() && 1 <= attempt < MAX_SAFE_INTEGER
    ensures Backoff(1, p) == Ok(p.initialBackoffMs)
    ensures attempt < 53 ==> Backoff(attempt + 1, p).value == Min(p.maximumBackoffMs, 2 * Backoff(attempt, p).value)
    ensures attempt >= 53 ==> Backoff(attempt + 1, p) == Backoff(attempt, p)
  {
    assert Pow2(0) == 1;
    if attempt < 53 {
      var k := Pow2(attempt - 1);
      assert Pow2(attempt) == 2 * k;
      assert p.initialBackoffMs * (2 * k) == 2 * (p.initialBackoffMs * k);
    }
  }

  /** The time at which a failed attempt becomes claimable again. */
  function RetryAt(now: int, attempt: int, p: RetryPolicy): Result<int>
  {
    var backoff := Backoff(attempt, p);
    if backoff.Err? then backoff else AddDuration(now, backoff.value)
  }

  lemma RetryAtIsLater(now: int, attempt: int, p: RetryPolicy)
    requires p.Valid()
    ensures RetryAt(now, attempt, p).Err? ==> RetryAt(now, attempt, p).code == InvalidArgument
    ensures RetryAt(now, attempt, p).Ok? ==> now < RetryAt(now, attempt, p).value && IsTime(RetryAt(now, attempt, p).value)
  {
    if 1 <= attempt <= MAX_SAFE_INTEGER { BackoffBounds(attempt, p); }
  }

  /** `assertValidLease`, in the order the checks are made. */
  function CheckLease(
    id: string, lastObservedAt: int, lease: Option<ActiveLease>, handle: LeaseHandle, now: int, kind: WorkKind)
    : Result<ActiveLease>
  {
    if !IsTime(now) then Err(InvalidArgument)
    else if now < lastObservedAt then Err(DatabaseTimeRegression)
    else if lease.None? || handle.workKind != kind || handle.workId != id ||
            handle.attemptId != lease.value.handle.attemptId ||
            handle.workerId != lease.value.handle.workerId ||
            handle.fencingToken != lease.value.handle.fencingToken then Err(LeaseMismatch)
    else if now >= lease.value.expiresAt then Err(LeaseExpired)
    else Ok(lease.value)
  }

  /** `^[A-Z][A-Z0-9_]{1,63}$` */
  predicate IsAuditCode(s: string)
  {
    2 <= |s| <= 64 && 'A' <= s[0] <= 'Z' &&
    forall i :: 1 <= i < |s| ==> 'A' <= s[i] <= 'Z' || '0' <= s[i] <= '9' || s[i] == '_'
  }

  predicate ValidFailure(f: FailureCause)
  {
    !Blank(f.code) && !Blank(f.fingerprint)
  }

  datatype Actor = System | Worker | Operator

  // ---------------------------------------------------------------- counting attempts

  /** The attempts that `cycle` finished replay cycles may have used. */
  function CycleBudget(cycle: int, maximum: int): int
  {
    cycle * maximum
  }

  lemma NextCycle(cycle: int, maximum: int)
    ensures CycleBudget(cycle + 1, maximum) == CycleBudget(cycle, maximum) + maximum
  {
  }

  lemma NoBudget(maximum: int)
    ensures CycleBudget(0, maximum) == 0
  {
  }

  predicate NoRepeats(order: seq<string>)
  {
    forall i, j :: 0 <= i < j < |order| ==> order[i] != order[j]
  }

  // ---------------------------------------------------------------- a policy whose retries can overflow

  const WidePolicy := RetryPolicy(2, 5, 5, MAX_SAFE_INTEGER)
  const OnlyFailure := FailureCause("F", Dependency, true, "f")
  const LateTime := MAX_SAFE_INTEGER - 1

  lemma LetterNotBlank(s: string)
    requires |s| == 1 && 'A' <= s[0] <= 'z'
    ensures !Blank(s)
  {
    assert !IsSpace(s[0]);
  }
}

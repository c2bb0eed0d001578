/** What Jobs and the Outbox ask of times and codes, written out: the time a wait ends, and the reason
    codes an operator may give. */
module DurableMeaning {
  import opened Texts
  import opened TextMeaning
  import opened DurableWork

  /** A time or a count that a JavaScript number holds exactly. */
  predicate Safe(n: int)
  {
    0 <= n <= 9007199254740991
  }

  /** The wait after attempt number `n` of a cycle: the initial backoff, doubled with every attempt, up to the maximum. */
  function Wait(p: RetryPolicy, n: int): int
    requires 1 <= n
  {
    Min(p.maximumBackoffMs, p.initialBackoffMs * Pow2(Min(n - 1, 52)))
  }

  lemma DueMeans(p: RetryPolicy, now: int, n: int)
    requires p.Valid() && Safe(now) && 1 <= n <= p.maximumAttemptsPerCycle
    ensures RetryAt(now, n, p) == if Safe(now + Wait(p, n)) then Ok(now + Wait(p, n)) else Err(InvalidArgument)
  {
    BackoffBounds(n, p);
    hide Pow2;
  }

  lemma SumMeans(now: int, duration: int)
    requires Safe(now) && Safe(duration)
    ensures AddDuration(now, duration) == if Safe(now + duration) then Ok(now + duration) else Err(InvalidArgument)
  {
  }

  /** A handle is checked as a whole: the time, then that it is the lease's own, then that the lease has not run out. */
  lemma CheckMeans(id: string, last: int, lease: Option<ActiveLease>, h: LeaseHandle, now: int, kind: WorkKind)
    requires lease.Some? ==> lease.value.handle.workKind == kind && lease.value.handle.workId == id
    ensures CheckLease(id, last, lease, h, now, kind) ==
      if !Safe(now) then Err(InvalidArgument)
      else if now < last then Err(DatabaseTimeRegression)
      else if lease.None? || lease.value.handle != h then Err(LeaseMismatch)
      else if lease.value.expiresAt <= now then Err(LeaseExpired)
      else Ok(lease.value)
  {
  }

  /** A policy allows at least one attempt and positive waits and leases, the first wait no longer than the longest. */
  lemma PolicyMeans(p: RetryPolicy)
    ensures p.Valid() <==>
      Safe(p.maximumAttemptsPerCycle) && Safe(p.initialBackoffMs) && Safe(p.maximumBackoffMs) && Safe(p.leaseDurationMs) &&
      p.maximumAttemptsPerCycle != 0 && p.initialBackoffMs != 0 && p.maximumBackoffMs != 0 && p.leaseDurationMs != 0 &&
      p.initialBackoffMs <= p.maximumBackoffMs
  {
  }

  /** Reason codes are 2 to 64 capitals, digits and underscores, and start with a capital. */
  lemma AuditCodeMeans(s: string)
    ensures IsAuditCode(s) <==>
      2 <= |s| <= 64 && s[0] in Capitals && forall i :: 0 <= i < |s| ==> s[i] in Capitals || s[i] in Digits || s[i] == '_'
  {
    forall i | 0 <= i < |s|
      ensures 'A' <= s[i] <= 'Z' <==> s[i] in Capitals
      ensures '0' <= s[i] <= '9' <==> s[i] in Digits
    {
      CapitalMeans(s[i]);
      DigitMeans(s[i]);
    }
  }
}

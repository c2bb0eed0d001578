/** What holds over whole runs of the Job model, from no jobs, for every sequence of calls. */
module JobsRuns {
  import opened Texts
  import opened DurableWork
  import opened Jobs
  import opened JobsInvariants
  import Encodings

  lemma StepKeeps(p: RetryPolicy, s: State, c: Command)
    requires p.Valid() && Inv(p, s) && Enabled(s, c)
    ensures Keeps(p, s, Step(p, s, c).0)
  {
    hide Inv, Keeps, IsReapOrder;
    KeepsSelf(p, s);
    match c
    case DoEnqueue(input) => EnqueueKeeps(p, s, input);
    case DoClaim(workerId, attemptId, now, pick) => ClaimKeeps(p, s, workerId, attemptId, now, pick);
    case DoHeartbeat(h, now) => HeartbeatKeeps(p, s, h, now);
    case DoCheckpoint(h, input, now) => CheckpointKeeps(p, s, h, input, now);
    case DoSucceed(h, resultRef, now) => SucceedKeeps(p, s, h, resultRef, now);
    case DoFail(h, failure, now) => FailKeeps(p, s, h, failure, now);
    case DoReclaim(order, now) => ReclaimKeeps(p, s, order, now);
    case DoReplay(id, operatorId, reasonCode, now) => ReplayKeeps(p, s, id, operatorId, reasonCode, now);
    case DoCancel(id, operatorId, reasonCode, now) => CancelKeeps(p, s, id, operatorId, reasonCode, now);
  }

  /** Everything `assertInvariants` tests, and more about leases, attempts and checkpoints, holds
      after every call of every run. */
  lemma {:induction false} EveryStateOk(p: RetryPolicy, commands: seq<Command>, states: seq<State>, i: nat)
    requires p.Valid() && IsRun(p, commands, states) && i < |states|
    ensures Inv(p, states[i])
  {
    if i > 0 {
      hide Inv, Grew, Enabled, Step;
      EveryStateOk(p, commands, states, i - 1);
      StepKeeps(p, states[i - 1], commands[i - 1]);
      assert states[i] == Step(p, states[i - 1], commands[i - 1]).0;
    }
  }

  /** Nothing is taken back: a succeeded or cancelled job and a finished attempt never change again,
      checkpoints and log only grow, and later attempts carry larger fencing tokens. */
  lemma {:induction false} NothingTakenBack(p: RetryPolicy, commands: seq<Command>, states: seq<State>, i: nat, j: nat)
    requires p.Valid() && IsRun(p, commands, states) && i <= j < |states|
    ensures Grew(states[i], states[j])
    decreases j
  {
    hide Inv, Grew, Enabled, Step;
    EveryStateOk(p, commands, states, i);
    if i == j {
      KeepsSelf(p, states[i]);
    } else {
      NothingTakenBack(p, commands, states, i, j - 1);
      EveryStateOk(p, commands, states, j - 1);
      StepKeeps(p, states[j - 1], commands[j - 1]);
      assert states[j] == Step(p, states[j - 1], commands[j - 1]).0;
      GrewTransitive(states[i], states[j - 1], states[j]);
    }
  }

  /** SUCCEEDED and CANCELLED are for good. */
  lemma FinalForGood(p: RetryPolicy, commands: seq<Command>, states: seq<State>, i: nat, j: nat, id: string)
    requires p.Valid() && IsRun(p, commands, states) && i <= j < |states| && id in states[i].jobs && Final(states[i].jobs[id])
    ensures id in states[j].jobs && states[j].jobs[id] == states[i].jobs[id]
  {
    hide IsRun, AttemptsGrew;
    NothingTakenBack(p, commands, states, i, j);
    assert JobGrew(states[i].jobs[id], states[j].jobs[id]);
  }

  /** The attempts of a job stay within its replay cycles. */
  lemma AttemptsWithinBudget(p: RetryPolicy, commands: seq<Command>, states: seq<State>, i: nat, id: string)
    requires p.Valid() && IsRun(p, commands, states) && i < |states| && id in states[i].jobs
    ensures var j := states[i].jobs[id];
      |AttemptsOf(states[i].attempts, id)| == j.totalAttempts <= j.replayCycle * p.maximumAttemptsPerCycle + j.attemptsInCycle &&
      j.attemptsInCycle <= p.maximumAttemptsPerCycle
  {
    hide IsRun, CheckpointsOk, IndexOk, AuditOk;
    EveryStateOk(p, commands, states, i);
    assert JobOk(p, id, states[i].jobs[id]);
  }

  /** RUNNING exactly with one active attempt, the one that holds the lease. */
  lemma OneActiveAttempt(p: RetryPolicy, commands: seq<Command>, states: seq<State>, i: nat, id: string, a: string)
    requires p.Valid() && IsRun(p, commands, states) && i < |states| && id in states[i].jobs
    requires a in states[i].attempts && states[i].attempts[a].workId == id
    ensures states[i].attempts[a].outcome == Active <==> (states[i].jobs[id].state == Running && Holds(states[i].jobs[id], a))
  {
    hide IsRun, CheckpointsOk, IndexOk, AuditOk, CountsOk;
    EveryStateOk(p, commands, states, i);
    assert JobOk(p, id, states[i].jobs[id]) && AttemptOk(states[i].jobs[id], a, states[i].attempts[a]);
  }

  // ---------------------------------------------------------------- checkpoints

  /** Checkpoints recorded earlier stay where they are, later ones follow them in sequence, and no
      worker writes behind one that has a larger fencing token. */
  lemma CheckpointsOnlyGrow(p: RetryPolicy, commands: seq<Command>, states: seq<State>, i: nat, j: nat, id: string, a: nat, b: nat)
    requires p.Valid() && IsRun(p, commands, states) && i <= j < |states|
    ensures CheckpointsOf(states[i], id) <= CheckpointsOf(states[j], id)
    ensures var line, attempts := CheckpointsOf(states[j], id), states[j].attempts;
      a < b < |line| ==>
        line[a].sequence < line[b].sequence && line[a].attemptId in attempts && line[b].attemptId in attempts &&
        attempts[line[a].attemptId].fencingToken <= attempts[line[b].attemptId].fencingToken
  {
    hide IsRun, JobsGrew, AttemptsGrew, Inv;
    NothingTakenBack(p, commands, states, i, j);
    EveryStateOk(p, commands, states, j);
    LineIsOk(p, states[j], id);
    var line, attempts := CheckpointsOf(states[j], id), states[j].attempts;
    if a < b < |line| {
      assert CheckpointOk(attempts, id, line[a]) && CheckpointOk(attempts, id, line[b]);
    }
  }

  /** A recorded checkpoint is what the call asked for, and is the last of its job. */
  lemma RecordedIs(p: RetryPolicy, s: State, h: LeaseHandle, input: CheckpointInput, now: int)
    requires CompleteCheckpoint(s, h, input, now).1.Recorded?
    ensures ValidCheckpoint(input)
    ensures var (t, r) := CompleteCheckpoint(s, h, input, now); var line := CheckpointsOf(t, h.workId);
      line != [] && line[|line| - 1] == r.checkpoint && r.checkpoint.sequence == input.sequence && SameOutput(r.checkpoint, input)
  {
    hide Admit, ValidCheckpoint, Log;
  }

  /** Once a checkpoint is recorded, the same call by whoever holds the job's lease then changes
      nothing for the rest of the run: it returns the recorded checkpoint while that is the latest,
      and is a conflict once a later one was recorded. */
  lemma RepeatedCheckpoint(p: RetryPolicy, commands: seq<Command>, states: seq<State>, i: nat, j: nat,
                           g: LeaseHandle, input: CheckpointInput, now: int, h: LeaseHandle, later: int)
    requires p.Valid() && IsRun(p, commands, states) && i < j < |states| && commands[i] == DoCheckpoint(g, input, now)
    requires CompleteCheckpoint(states[i], g, input, now).1.Recorded? && h.workId == g.workId && Admit(states[j], h, later).Ok?
    ensures var c := CompleteCheckpoint(states[i], g, input, now).1.checkpoint;
      c in CheckpointsOf(states[j], g.workId) &&
      CompleteCheckpoint(states[j], h, input, later) ==
        (states[j], if Latest(states[j], g.workId) == Some(c) then Recorded(c) else Rejected(SequenceConflict))
  {
    hide Inv, Admit, ValidCheckpoint, LineOk, JobsGrew, AttemptsGrew;
    RecordedIs(p, states[i], g, input, now);
    assert states[i + 1] == CompleteCheckpoint(states[i], g, input, now).0;
    var c := CompleteCheckpoint(states[i], g, input, now).1.checkpoint;
    NothingTakenBack(p, commands, states, i + 1, j);
    EveryStateOk(p, commands, states, j);
    LineIsOk(p, states[j], g.workId);
    var k := |CheckpointsOf(states[i + 1], g.workId)| - 1;
    hide IsRun;
    RepeatOn(states[j], h, input, later, c, k);
  }

  lemma RepeatOn(s: State, h: LeaseHandle, input: CheckpointInput, now: int, c: Checkpoint, k: nat)
    requires ValidCheckpoint(input) && Admit(s, h, now).Ok? && LineOk(s.attempts, h.workId, CheckpointsOf(s, h.workId))
    requires k < |CheckpointsOf(s, h.workId)| && CheckpointsOf(s, h.workId)[k] == c && c.sequence == input.sequence && SameOutput(c, input)
    ensures CompleteCheckpoint(s, h, input, now) == (s, if Latest(s, h.workId) == Some(c) then Recorded(c) else Rejected(SequenceConflict))
  {
    hide Admit, ValidCheckpoint;
    var line := CheckpointsOf(s, h.workId);
    var last := |line| - 1;
    assert CheckpointOk(s.attempts, h.workId, line[k]) && CheckpointOk(s.attempts, h.workId, line[last]);
    assert k < last ==> line[k].sequence < line[last].sequence;
    hide LineOk;
  }

  // ---------------------------------------------------------------- stale workers

  /** Whatever the holder of `h` tries on `s` is refused and leaves `s` as it was. */
  ghost predicate Powerless(p: RetryPolicy, s: State, h: LeaseHandle)
  {
    forall now, input, text, failure :: Refuses(p, s, h, now, input, text, failure)
  }

  ghost predicate Refuses(p: RetryPolicy, s: State, h: LeaseHandle, now: int, input: CheckpointInput, text: string, failure: FailureCause)
  {
    (var r := Heartbeat(p, s, h, now); r.0 == s && r.1.Rejected?) &&
    (var r := CompleteCheckpoint(s, h, input, now); r.0 == s && r.1.Rejected?) &&
    (var r := Succeed(s, h, text, now); r.0 == s && r.1.Rejected?) &&
    (var r := Fail(p, s, h, failure, now); r.0 == s && r.1.Rejected?)
  }

  /** Once an attempt is finished, reclaimed or cancelled, its handle is refused for the rest of the
      run. */
  lemma StaleWorkerRefused(p: RetryPolicy, commands: seq<Command>, states: seq<State>, i: nat, j: nat, h: LeaseHandle)
    requires p.Valid() && IsRun(p, commands, states) && i <= j < |states|
    requires h.attemptId in states[i].attempts && states[i].attempts[h.attemptId].outcome != Active
    ensures Powerless(p, states[j], h)
  {
    hide IsRun, Inv, JobsGrew;
    NothingTakenBack(p, commands, states, i, j);
    EveryStateOk(p, commands, states, j);
    assert AttemptGrew(states[i].attempts[h.attemptId], states[j].attempts[h.attemptId]);
    forall now
      ensures Admit(states[j], h, now).Err?
    {
      Admitted(p, states[j], h, now);
    }
    hide Admit, AttemptGrew, Grew;
    NeverAdmitted(p, states[j], h);
  }

  lemma NeverAdmitted(p: RetryPolicy, s: State, h: LeaseHandle)
    requires forall now :: Admit(s, h, now).Err?
    ensures Powerless(p, s, h)
  {
    hide CheckLease, FinishFailure, AddDuration, Log, Admit;
    forall now, input: CheckpointInput, text: string, failure: FailureCause
      ensures Refuses(p, s, h, now, input, text, failure)
    {
      assert Admit(s, h, now).Err?;
    }
  }

  /** At any state only one handle of a job is accepted, and never while its lease is reclaimable. */
  lemma OneValidHandle(p: RetryPolicy, s: State, g: LeaseHandle, h: LeaseHandle, t: int, u: int)
    requires Inv(p, s) && g.workId == h.workId && Admit(s, g, t).Ok? && Admit(s, h, u).Ok?
    ensures g == h && !LeaseIsOver(s, h.workId, u)
  {
    hide Inv;
    Admitted(p, s, g, t);
    Admitted(p, s, h, u);
  }

  /** A later attempt on the same job carries a larger fencing token. */
  lemma FencingTokensIncrease(p: RetryPolicy, commands: seq<Command>, states: seq<State>, i: nat, j: nat, a: string, b: string)
    requires p.Valid() && IsRun(p, commands, states) && i <= j < |states|
    requires a in states[i].attempts && b in states[j].attempts && b !in states[i].attempts
    requires states[i].attempts[a].workId == states[j].attempts[b].workId
    ensures states[i].attempts[a].fencingToken < states[j].attempts[b].fencingToken
  {
    hide IsRun, CheckpointsOk, IndexOk, AuditOk, CountsOk, JobsGrew, JobsOk;
    NothingTakenBack(p, commands, states, i, j);
    EveryStateOk(p, commands, states, i);
    assert AttemptOk(states[i].jobs[states[i].attempts[a].workId], a, states[i].attempts[a]);
  }

  // ---------------------------------------------------------------- idempotent enqueue

  lemma ScopeInjective(a: string, b: string, c: string, x: string, y: string, z: string)
    ensures Scope(a, b, c) == Scope(x, y, z) <==> a == x && b == y && c == z
  {
    Encodings.JsonStringsInjective([a, b, c], [x, y, z]);
    hide Encodings.JsonStrings;
    if [a, b, c] == [x, y, z] { assert [a, b, c][0] == [x, y, z][0] && [a, b, c][1] == [x, y, z][1] && [a, b, c][2] == [x, y, z][2]; }
  }

  /** Once a job is enqueued, its project, type and idempotency key belong to it for the rest of the
      run: the same input returns the job as it is now and changes nothing, another input is a
      conflict, and no second job ever takes the key. */
  lemma RepeatedEnqueue(p: RetryPolicy, commands: seq<Command>, states: seq<State>, i: nat, j: nat, id: string, again: EnqueueInput)
    requires p.Valid() && IsRun(p, commands, states) && i <= j < |states| && id in states[i].jobs && ValidEnqueue(again)
    ensures id in states[j].jobs
    ensures var first, now := states[i].jobs[id], states[j].jobs[id];
      again.projectId == first.projectId && again.jobType == first.jobType && again.idempotencyKey == first.idempotencyKey ==>
        Enqueue(states[j], again) == (states[j], if again.inputDigest == first.inputDigest then Jobs([now]) else Rejected(IdempotencyConflict))
  {
    hide IsRun, AttemptsGrew, JobsOk, AttemptsOk, CheckpointsOk, AuditOk, Scope, ValidEnqueue;
    NothingTakenBack(p, commands, states, i, j);
    EveryStateOk(p, commands, states, j);
    assert JobGrew(states[i].jobs[id], states[j].jobs[id]);
  }

  lemma OneJobPerKey(p: RetryPolicy, commands: seq<Command>, states: seq<State>, i: nat, x: string, y: string)
    requires p.Valid() && IsRun(p, commands, states) && i < |states| && x in states[i].jobs && y in states[i].jobs
    ensures var j, k := states[i].jobs[x], states[i].jobs[y];
      j.projectId == k.projectId && j.jobType == k.jobType && j.idempotencyKey == k.idempotencyKey ==> x == y
  {
    hide IsRun, JobsOk, AttemptsOk, CheckpointsOk, AuditOk, Scope;
    EveryStateOk(p, commands, states, i);
  }
}

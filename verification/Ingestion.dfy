/**
 Ingestion jobs and their attempts (app/documents/jobs.py:48-605;
 app/documents/service.py:3194-3530, 3828-3945, 4594-5125): claim, renew, reclaim
 after a lost lease, success, failure, cancellation, replay, deletion.

 One job. An attempt is its position in the job's list of attempts, a publication
 its position in the job's list of publications.
*/
module Ingestion {
  import opened Options

  datatype JobState = Pending | Running | RetryWait | Succeeded | FailedJob | Cancelled | DeadLetter
  datatype AttemptState = AttemptRunning | AttemptSucceeded | AttemptFailed | AttemptExpired | AttemptCancelled
  datatype PublicationState = Staged | ActivePublication | Removed

  datatype Attempt = Attempt(
    number: nat, cycle: nat, generation: nat, state: AttemptState, owner: string,
    expires: Option<int>, token: nat, publication: Option<nat>)

  /** `cancels` counts the attempts cancelled while running; `deleted` says the document is gone. */
  datatype Job = Job(
    state: JobState, attempts: seq<Attempt>, active: Option<nat>, publications: seq<PublicationState>, staged: nat,
    generation: nat, next: Option<int>, cancels: nat, deleted: bool)

  datatype Lease = Lease(attempt: nat, token: nat, owner: string, expires: int, publication: nat)

  const MAX_ATTEMPTS: nat := 4
  const BACKOFF_MINUTES: seq<int> := [1, 5, 30]

  function MaxNumber(attempts: seq<Attempt>): nat {
    if attempts == [] then 0
    else var rest := MaxNumber(attempts[..|attempts| - 1]); var last := attempts[|attempts| - 1].number; if last > rest then last else rest
  }

  function MaxToken(attempts: seq<Attempt>): nat {
    if attempts == [] then 0
    else var rest := MaxToken(attempts[..|attempts| - 1]); var last := attempts[|attempts| - 1].token; if last > rest then last else rest
  }

  /** The attempts of one replay generation. */
  function CountOf(attempts: seq<Attempt>, generation: nat): nat {
    if attempts == [] then 0
    else CountOf(attempts[..|attempts| - 1], generation) + if attempts[|attempts| - 1].generation == generation then 1 else 0
  }

  function RemoveStaged(publications: seq<PublicationState>): seq<PublicationState> {
    seq(|publications|, i requires 0 <= i < |publications| => if publications[i].Staged? then Removed else publications[i])
  }

  /** The delay after `count` attempts, in seconds; an index before the first counts from the end. */
  function Delay(count: nat, percent: int): int
    requires count < MAX_ATTEMPTS
  {
    (if count == 0 then BACKOFF_MINUTES[2] else BACKOFF_MINUTES[count - 1]) * 60 * percent / 100
  }

  // ---------------------------------------------------------------- transitions

  predicate Runnable(j: Job, now: int) {
    (j.state.Pending? || j.state.RetryWait?) && (j.next.None? || j.next.value <= now) && !j.deleted
  }

  /** A staged publication is reused; otherwise a new one is made. */
  function WithStaged(j: Job): Job {
    if j.staged < |j.publications| && j.publications[j.staged].Staged? then j
    else j.(publications := j.publications + [Staged], staged := |j.publications|)
  }

  function Claim(j: Job, worker: string, now: int, ttl: int): Job {
    if !Runnable(j, now) then j
    else
      var k := WithStaged(j);
      var attempt := Attempt(MaxNumber(j.attempts) + 1, CountOf(j.attempts, j.generation) + 1, j.generation, AttemptRunning,
                             worker, Some(now + ttl), MaxToken(j.attempts) + 1, Some(k.staged));
      k.(attempts := j.attempts + [attempt], state := Running, active := Some(|j.attempts|), next := None)
  }

  function LeaseOf(j: Job): Lease
    requires j.attempts != [] && j.attempts[|j.attempts| - 1].expires.Some?
  {
    var last := j.attempts[|j.attempts| - 1];
    Lease(|j.attempts| - 1, last.token, last.owner, last.expires.value, j.staged)
  }

  predicate Renewable(j: Job, lease: Lease, owner: string, now: int) {
    && lease.attempt < |j.attempts| && j.state.Running? && j.active == Some(lease.attempt)
    && j.attempts[lease.attempt].state.AttemptRunning? && j.attempts[lease.attempt].owner == owner
    && j.attempts[lease.attempt].token == lease.token
    && j.attempts[lease.attempt].expires.Some? && j.attempts[lease.attempt].expires.value > now
  }

  function Renew(j: Job, lease: Lease, owner: string, now: int, ttl: int): Job {
    if !Renewable(j, lease, owner, now) then j
    else j.(attempts := j.attempts[lease.attempt := j.attempts[lease.attempt].(expires := Some(now + ttl))])
  }

  /** The running attempt ends without success: its lease and its staged publication go. */
  function EndAttempt(j: Job, i: nat, state: AttemptState, token: nat): Job
    requires i < |j.attempts|
  {
    j.(attempts := j.attempts[i := Ended(j.attempts[i], state, token)], active := None, publications := RemoveStaged(j.publications))
  }

  function Ended(a: Attempt, state: AttemptState, token: nat): Attempt {
    a.(state := state, token := token, expires := None, publication := None)
  }

  function Retry(j: Job, i: nat, state: AttemptState, retryable: bool, now: int, percent: int): Job
    requires i < |j.attempts|
  {
    var count := CountOf(j.attempts, j.generation);
    var ended := EndAttempt(j, i, state, j.attempts[i].token);
    if retryable && count < MAX_ATTEMPTS then ended.(state := RetryWait, next := Some(now + Delay(count, percent)))
    else ended.(state := if retryable then DeadLetter else FailedJob, next := None)
  }

  /** `_reclaim_expired_attempts`, for this job. */
  function Reclaim(j: Job, now: int, percent: int): Job {
    if !j.state.Running? || j.active.None? || j.active.value >= |j.attempts| then j
    else
      var attempt := j.attempts[j.active.value];
      if !attempt.state.AttemptRunning? || attempt.expires.None? || attempt.expires.value > now then j
      else Retry(j, j.active.value, AttemptExpired, true, now, percent)
  }

  /** The caller names the job's current running attempt and its token. */
  predicate Current(j: Job, attempt: nat, token: nat) {
    j.state.Running? && j.active == Some(attempt) && attempt < |j.attempts| &&
    j.attempts[attempt].state.AttemptRunning? && j.attempts[attempt].token == token
  }

  function Fail(j: Job, attempt: nat, token: nat, retryable: bool, now: int, percent: int): Job {
    if !Current(j, attempt, token) then j else Retry(j, attempt, AttemptFailed, retryable, now, percent)
  }

  function Succeed(j: Job, attempt: nat, token: nat, now: int): Job {
    if !Current(j, attempt, token) || j.attempts[attempt].expires.None? || j.attempts[attempt].expires.value <= now
       || j.staged >= |j.publications| then j
    else j.(attempts := j.attempts[attempt := j.attempts[attempt].(state := AttemptSucceeded, expires := None)],
            publications := j.publications[j.staged := ActivePublication], state := Succeeded)
  }

  /** A running attempt is cancelled under a token of its own, above every other. */
  function Cancel(j: Job): Job {
    if !(j.state.Pending? || j.state.Running? || j.state.RetryWait?) then j
    else if j.active.Some? && j.active.value < |j.attempts| then
      EndAttempt(j, j.active.value, AttemptCancelled, MaxToken(j.attempts) + 1).(state := Cancelled, cancels := j.cancels + 1)
    else j.(state := Cancelled, active := None, publications := RemoveStaged(j.publications))
  }

  function Replay(j: Job): Job {
    if !(j.state.FailedJob? || j.state.DeadLetter? || j.state.Cancelled?) || j.deleted then j
    else j.(state := Pending, active := None, publications := j.publications + [Staged], staged := |j.publications|,
            generation := j.generation + 1, next := None)
  }

  /** Deleting the document cancels the attempt under its old token, and the job keeps naming it. */
  function Delete(j: Job): Job {
    var attempts := seq(|j.attempts|, i requires 0 <= i < |j.attempts| =>
      if j.attempts[i].state.AttemptRunning? then j.attempts[i].(state := AttemptCancelled, expires := None, publication := None) else j.attempts[i]);
    j.(attempts := attempts, state := if j.state.Pending? || j.state.Running? || j.state.RetryWait? then Cancelled else j.state,
       publications := RemoveStaged(j.publications), deleted := true)
  }

  datatype Step =
    | ClaimStep(worker: string, now: int, ttl: int)
    | RenewStep(lease: Lease, owner: string, now: int, ttl: int)
    | ReclaimStep(now: int, percent: int)
    | FailStep(attempt: nat, token: nat, retryable: bool, now: int, percent: int)
    | SucceedStep(attempt: nat, token: nat, now: int)
    | CancelStep
    | ReplayStep
    | DeleteStep

  function Apply(j: Job, step: Step): Job {
    match step
    case ClaimStep(worker, now, ttl) => Claim(j, worker, now, ttl)
    case RenewStep(lease, owner, now, ttl) => Renew(j, lease, owner, now, ttl)
    case ReclaimStep(now, percent) => Reclaim(j, now, percent)
    case FailStep(attempt, token, retryable, now, percent) => Fail(j, attempt, token, retryable, now, percent)
    case SucceedStep(attempt, token, now) => Succeed(j, attempt, token, now)
    case CancelStep => Cancel(j)
    case ReplayStep => Replay(j)
    case DeleteStep => Delete(j)
  }

  function Run(j: Job, steps: seq<Step>): Job
    decreases |steps|
  {
    if steps == [] then j else Run(Apply(j, steps[0]), steps[1..])
  }

  /** A job as it is created: pending, with one staged publication. */
  const NEW_JOB: Job := Job(Pending, [], None, [Staged], 0, 0, None, 0, false)

  // ---------------------------------------------------------------- the invariant

  /** Attempts are numbered from one, their tokens ascend, and cancelling has used up one token each time. */
  predicate TokensHold(attempts: seq<Attempt>, cancels: nat) {
    && (forall i :: 0 <= i < |attempts| ==> attempts[i].number == i + 1)
    && (forall i, k :: 0 <= i < k < |attempts| ==> attempts[i].token < attempts[k].token)
    && (if attempts == [] then cancels == 0 else attempts[|attempts| - 1].token == |attempts| + cancels)
  }

  /** No generation has more than four attempts, and each is numbered within its own. */
  ghost predicate CyclesHold(attempts: seq<Attempt>, generation: nat) {
    && (forall g :: CountOf(attempts, g) <= MAX_ATTEMPTS)
    && (forall i :: 0 <= i < |attempts| ==> attempts[i].generation <= generation)
    && (forall i {:trigger NumberedInCycle(attempts, i)} :: 0 <= i < |attempts| ==> NumberedInCycle(attempts, i))
  }

  predicate NumberedInCycle(attempts: seq<Attempt>, i: nat)
    requires i < |attempts|
  {
    attempts[i].cycle == CountOf(attempts[..i], attempts[i].generation) + 1
  }

  /** A running job's active attempt is the newest one and the only one running; otherwise none is running. */
  predicate RunningHolds(state: JobState, attempts: seq<Attempt>, active: Option<nat>) {
    if state.Running? then
      && attempts != [] && active == Some(|attempts| - 1) && attempts[|attempts| - 1].state.AttemptRunning?
      && forall i :: 0 <= i < |attempts| - 1 ==> !attempts[i].state.AttemptRunning?
    else NoneRuns(attempts)
  }

  predicate NoneRuns(attempts: seq<Attempt>) {
    forall i :: 0 <= i < |attempts| ==> !attempts[i].state.AttemptRunning?
  }

  /** A job that waits for an attempt may have one more; a running one belongs to the current generation, with the staged publication. */
  predicate RoomHolds(j: Job) {
    && (j.state.Pending? || j.state.RetryWait? ==> j.active.None? && CountOf(j.attempts, j.generation) < MAX_ATTEMPTS)
    && (j.state.Running? && j.attempts != [] ==>
          && j.attempts[|j.attempts| - 1].generation == j.generation
          && j.attempts[|j.attempts| - 1].expires.Some? && j.attempts[|j.attempts| - 1].publication == Some(j.staged))
  }

  /** Only the job's own publication can be staged, and it is while the job is pending or running. */
  predicate StagedHolds(state: JobState, publications: seq<PublicationState>, staged: nat) {
    && (forall p :: 0 <= p < |publications| && publications[p].Staged? ==> p == staged && (state.Pending? || state.Running?))
    && (state.Pending? || state.Running? ==> staged < |publications| && publications[staged].Staged?)
  }

  ghost predicate Inv(j: Job) {
    && TokensHold(j.attempts, j.cancels) && CyclesHold(j.attempts, j.generation)
    && RunningHolds(j.state, j.attempts, j.active) && RoomHolds(j) && StagedHolds(j.state, j.publications, j.staged)
  }

  lemma {:induction false} MaxNumberIs(attempts: seq<Attempt>)
    requires forall i :: 0 <= i < |attempts| ==> attempts[i].number == i + 1
    ensures MaxNumber(attempts) == |attempts|
  {
    if attempts != [] { MaxNumberIs(attempts[..|attempts| - 1]); }
  }

  lemma {:induction false} MaxTokenIs(attempts: seq<Attempt>)
    requires attempts != [] && forall i, k :: 0 <= i < k < |attempts| ==> attempts[i].token < attempts[k].token
    ensures MaxToken(attempts) == attempts[|attempts| - 1].token
  {
    if |attempts| > 1 {
      MaxTokenIs(attempts[..|attempts| - 1]);
      assert attempts[..|attempts| - 1][|attempts| - 2].token < attempts[|attempts| - 1].token;
    }
  }

  lemma {:induction false} CountFrame(attempts: seq<Attempt>, later: seq<Attempt>, g: nat)
    requires |attempts| == |later| && forall i :: 0 <= i < |attempts| ==> later[i].generation == attempts[i].generation
    ensures CountOf(attempts, g) == CountOf(later, g)
  {
    if attempts != [] { CountFrame(attempts[..|attempts| - 1], later[..|attempts| - 1], g); }
  }

  lemma {:induction false} CountNone(attempts: seq<Attempt>, g: nat)
    requires forall i :: 0 <= i < |attempts| ==> attempts[i].generation < g
    ensures CountOf(attempts, g) == 0
  {
    if attempts != [] { CountNone(attempts[..|attempts| - 1], g); }
  }

  /** Attempts that keep their numbers, cycles and generations stay lawful. */
  lemma CyclesFrame(attempts: seq<Attempt>, later: seq<Attempt>, generation: nat)
    requires CyclesHold(attempts, generation) && |attempts| == |later|
    requires forall i :: 0 <= i < |attempts| ==> later[i].generation == attempts[i].generation && later[i].cycle == attempts[i].cycle
    ensures CyclesHold(later, generation) && forall g :: CountOf(later, g) == CountOf(attempts, g)
  {
    forall g: nat ensures CountOf(later, g) == CountOf(attempts, g) {
      CountFrame(attempts, later, g);
    }
    forall i: nat | i < |later| ensures NumberedInCycle(later, i) {
      assert NumberedInCycle(attempts, i);
      CountFrame(attempts[..i], later[..i], later[i].generation);
    }
  }

  // ---------------------------------------------------------------- every step keeps it

  lemma ClaimKeeps(j: Job, worker: string, now: int, ttl: int)
    requires Inv(j)
    ensures Inv(Claim(j, worker, now, ttl))
  {
    if Runnable(j, now) {
      MaxNumberIs(j.attempts);
      if j.attempts != [] { MaxTokenIs(j.attempts); }
      ClaimedHolds(j, Claim(j, worker, now, ttl));
    }
  }

  /** A job with one more attempt, which runs. */
  lemma ClaimedHolds(j: Job, k: Job)
    requires Inv(j) && (j.state.Pending? || j.state.RetryWait?)
    requires k.state.Running? && k.active == Some(|j.attempts|) && k.generation == j.generation && k.cancels == j.cancels
    requires k.publications == WithStaged(j).publications && k.staged == WithStaged(j).staged
    requires |k.attempts| == |j.attempts| + 1 && k.attempts[..|j.attempts|] == j.attempts
    requires var attempt := k.attempts[|j.attempts|];
      && attempt.number == |j.attempts| + 1 && attempt.token == |j.attempts| + j.cancels + 1
      && attempt.generation == j.generation && attempt.cycle == CountOf(j.attempts, j.generation) + 1
      && attempt.state.AttemptRunning? && attempt.expires.Some? && attempt.publication == Some(k.staged)
    ensures Inv(k)
  {
    var attempt := k.attempts[|j.attempts|];
    assert k.attempts == j.attempts + [attempt];
    ClaimKeepsCycles(j.attempts, j.generation, attempt);
    ClaimKeepsTokens(j.attempts, j.cancels, attempt);
    assert RunningHolds(k.state, k.attempts, k.active);
    assert StagedHolds(k.state, k.publications, k.staged);
  }

  lemma ClaimKeepsTokens(attempts: seq<Attempt>, cancels: nat, attempt: Attempt)
    requires TokensHold(attempts, cancels) && attempt.number == |attempts| + 1
    requires attempt.token == |attempts| + cancels + 1
    ensures TokensHold(attempts + [attempt], cancels)
  {}

  lemma ClaimKeepsCycles(attempts: seq<Attempt>, generation: nat, attempt: Attempt)
    requires CyclesHold(attempts, generation) && CountOf(attempts, generation) < MAX_ATTEMPTS
    requires attempt.generation == generation && attempt.cycle == CountOf(attempts, generation) + 1
    ensures CyclesHold(attempts + [attempt], generation)
  {
    var later := attempts + [attempt];
    assert later[..|attempts|] == attempts;
    forall i: nat | i < |later| ensures NumberedInCycle(later, i) {
      if i < |attempts| {
        assert NumberedInCycle(attempts, i) && later[..i] == attempts[..i];
      }
    }
  }

  /** Attempt by attempt: what is ended, renewed or cancelled in place keeps numbers, tokens and cycles. */
  lemma InPlaceKeeps(attempts: seq<Attempt>, later: seq<Attempt>, generation: nat, cancels: nat)
    requires TokensHold(attempts, cancels) && CyclesHold(attempts, generation) && |later| == |attempts|
    requires forall i :: 0 <= i < |attempts| ==> later[i].number == attempts[i].number && later[i].token == attempts[i].token
    requires forall i :: 0 <= i < |attempts| ==> later[i].generation == attempts[i].generation && later[i].cycle == attempts[i].cycle
    ensures TokensHold(later, cancels) && CyclesHold(later, generation) && forall g :: CountOf(later, g) == CountOf(attempts, g)
  {
    CyclesFrame(attempts, later, generation);
  }

  /** The running attempt ends and the job goes to a state that is neither pending nor running. */
  lemma EndKeeps(j: Job, state: AttemptState, next: JobState, wakes: Option<int>)
    requires Inv(j) && j.state.Running? && !state.AttemptRunning? && !next.Running? && !next.Pending?
    requires next.RetryWait? ==> CountOf(j.attempts, j.generation) < MAX_ATTEMPTS
    ensures Inv(EndAttempt(j, j.active.value, state, j.attempts[j.active.value].token).(state := next, next := wakes))
  {
    var i := j.active.value;
    var later := j.attempts[i := Ended(j.attempts[i], state, j.attempts[i].token)];
    InPlaceKeeps(j.attempts, later, j.generation, j.cancels);
    assert NoneRuns(later);
  }

  lemma RetryKeeps(j: Job, i: nat, state: AttemptState, retryable: bool, now: int, percent: int)
    requires Inv(j) && j.state.Running? && j.active == Some(i) && i < |j.attempts| && !state.AttemptRunning?
    ensures Inv(Retry(j, i, state, retryable, now, percent))
  {
    var k := Retry(j, i, state, retryable, now, percent);
    EndKeeps(j, state, k.state, k.next);
  }

  lemma CancelKeeps(j: Job)
    requires Inv(j)
    ensures Inv(Cancel(j))
  {
    if j.state.Running? { CancelRunningKeeps(j); }
  }

  lemma CancelRunningKeeps(j: Job)
    requires Inv(j) && j.state.Running?
    ensures Inv(Cancel(j))
  {
    MaxTokenIs(j.attempts);
    var i := j.active.value;
    var later := j.attempts[i := Ended(j.attempts[i], AttemptCancelled, MaxToken(j.attempts) + 1)];
    CyclesFrame(j.attempts, later, j.generation);
    assert NoneRuns(later);
  }

  lemma RenewKeeps(j: Job, lease: Lease, owner: string, now: int, ttl: int)
    requires Inv(j)
    ensures Inv(Renew(j, lease, owner, now, ttl))
  {
    InPlaceKeeps(j.attempts, Renew(j, lease, owner, now, ttl).attempts, j.generation, j.cancels);
  }

  lemma SucceedKeeps(j: Job, attempt: nat, token: nat, now: int)
    requires Inv(j)
    ensures Inv(Succeed(j, attempt, token, now))
  {
    if Current(j, attempt, token) {
      var later := j.attempts[attempt := j.attempts[attempt].(state := AttemptSucceeded, expires := None)];
      InPlaceKeeps(j.attempts, later, j.generation, j.cancels);
    }
  }

  lemma ReplayKeeps(j: Job)
    requires Inv(j)
    ensures Inv(Replay(j))
  {
    if Replay(j) != j {
      CountNone(j.attempts, j.generation + 1);
    }
  }

  lemma DeleteKeeps(j: Job)
    requires Inv(j)
    ensures Inv(Delete(j))
  {
    InPlaceKeeps(j.attempts, Delete(j).attempts, j.generation, j.cancels);
    assert NoneRuns(Delete(j).attempts);
  }

  lemma StepKeeps(j: Job, step: Step)
    requires Inv(j)
    ensures Inv(Apply(j, step))
  {
    match step
    case ClaimStep(worker, now, ttl) => ClaimKeeps(j, worker, now, ttl);
    case RenewStep(lease, owner, now, ttl) => RenewKeeps(j, lease, owner, now, ttl);
    case ReclaimStep(now, percent) =>
      if j.state.Running? && j.attempts[j.active.value].state.AttemptRunning? { RetryKeeps(j, j.active.value, AttemptExpired, true, now, percent); }
    case FailStep(attempt, token, retryable, now, percent) =>
      if Current(j, attempt, token) { RetryKeeps(j, attempt, AttemptFailed, retryable, now, percent); }
    case SucceedStep(attempt, token, now) => SucceedKeeps(j, attempt, token, now);
    case CancelStep => CancelKeeps(j);
    case ReplayStep => ReplayKeeps(j);
    case DeleteStep => DeleteKeeps(j);
  }

  /** Attempts are only added; an ended one never changes again, and no token goes down. */
  predicate AttemptsGrow(attempts: seq<Attempt>, later: seq<Attempt>) {
    && |attempts| <= |later|
    && (forall i :: 0 <= i < |attempts| && !attempts[i].state.AttemptRunning? ==> later[i] == attempts[i])
    && (forall i :: 0 <= i < |attempts| ==> attempts[i].token <= later[i].token)
  }

  predicate Grows(j: Job, k: Job) {
    j.generation <= k.generation && j.cancels <= k.cancels && AttemptsGrow(j.attempts, k.attempts)
  }

  lemma RetryGrows(j: Job, i: nat, state: AttemptState, retryable: bool, now: int, percent: int)
    requires i < |j.attempts| && j.attempts[i].state.AttemptRunning?
    ensures Grows(j, Retry(j, i, state, retryable, now, percent))
  {
  }

  lemma StepGrows(j: Job, step: Step)
    requires Inv(j)
    ensures Grows(j, Apply(j, step))
  {
    match step
    case ClaimStep(worker, now, ttl) =>
    case RenewStep(lease, owner, now, ttl) =>
    case ReclaimStep(now, percent) =>
      if Reclaim(j, now, percent) != j { RetryGrows(j, j.active.value, AttemptExpired, true, now, percent); }
    case FailStep(attempt, token, retryable, now, percent) =>
      if Current(j, attempt, token) { RetryGrows(j, attempt, AttemptFailed, retryable, now, percent); }
    case SucceedStep(attempt, token, now) =>
    case CancelStep =>
    case ReplayStep =>
    case DeleteStep =>
  }

  lemma {:induction false} RunKeeps(j: Job, steps: seq<Step>)
    requires Inv(j)
    ensures Inv(Run(j, steps)) && Grows(j, Run(j, steps))
    decreases |steps|
  {
    if steps != [] {
      StepKeeps(j, steps[0]);
      StepGrows(j, steps[0]);
      RunKeeps(Apply(j, steps[0]), steps[1..]);
    }
  }

  // ---------------------------------------------------------------- main results

  /** A job is running exactly when one attempt runs; that attempt is the newest, the active one, and the only one. */
  lemma RunningIffOneRuns(steps: seq<Step>)
    ensures Run(NEW_JOB, steps).state.Running? <==>
      exists i :: 0 <= i < |Run(NEW_JOB, steps).attempts| && Run(NEW_JOB, steps).attempts[i].state.AttemptRunning?
    ensures forall i :: 0 <= i < |Run(NEW_JOB, steps).attempts| && Run(NEW_JOB, steps).attempts[i].state.AttemptRunning? ==>
      i == |Run(NEW_JOB, steps).attempts| - 1 && Run(NEW_JOB, steps).active == Some(i)
  {
    RunKeeps(NEW_JOB, steps);
  }

  /** Tokens strictly increase with the attempts. */
  lemma TokensIncrease(steps: seq<Step>, i: nat, k: nat)
    requires i < k < |Run(NEW_JOB, steps).attempts|
    ensures Run(NEW_JOB, steps).attempts[i].token < Run(NEW_JOB, steps).attempts[k].token
  {
    RunKeeps(NEW_JOB, steps);
  }

  /** A claim's token is its attempt's number if and only if no running attempt was ever cancelled. */
  lemma TokenIsNumberIffNoneCancelled(steps: seq<Step>, worker: string, now: int, ttl: int)
    requires Runnable(Run(NEW_JOB, steps), now)
    ensures |Claim(Run(NEW_JOB, steps), worker, now, ttl).attempts| == |Run(NEW_JOB, steps).attempts| + 1
    ensures var attempt := Claim(Run(NEW_JOB, steps), worker, now, ttl).attempts[|Run(NEW_JOB, steps).attempts|];
      && attempt.token == attempt.number + Run(NEW_JOB, steps).cancels
      && (attempt.token == attempt.number <==> Run(NEW_JOB, steps).cancels == 0)
  {
    RunKeeps(NEW_JOB, steps);
    ClaimKeeps(Run(NEW_JOB, steps), worker, now, ttl);
  }

  /** A run after which they differ: claimed, cancelled while running, replayed. The next claim's token passes its number. */
  lemma TokenPassesNumber() returns (steps: seq<Step>)
    ensures Runnable(Run(NEW_JOB, steps), 0) && Run(NEW_JOB, steps).cancels == 1
  {
    steps := [ClaimStep("w", 0, 1), CancelStep, ReplayStep];
    assert steps[1..] == [CancelStep, ReplayStep] && steps[1..][1..] == [ReplayStep] && steps[1..][1..][1..] == [];
    var j1 := Apply(NEW_JOB, steps[0]);
    assert j1.state.Running? && j1.active == Some(0) && |j1.attempts| == 1 && j1.cancels == 0 && !j1.deleted;
    CancelledIsReplayed(j1);
    assert Run(NEW_JOB, steps) == Run(j1, steps[1..]);
    assert Run(j1, steps[1..]) == Run(Cancel(j1), steps[1..][1..]);
    assert Run(Cancel(j1), steps[1..][1..]) == Run(Replay(Cancel(j1)), []);
  }

  lemma CancelledIsReplayed(j: Job)
    requires j.state.Running? && j.active == Some(0) && |j.attempts| == 1 && j.cancels == 0 && !j.deleted
    ensures Runnable(Replay(Cancel(j)), 0) && Replay(Cancel(j)).cancels == 1
  {}

  /** A replay generation never has more than four attempts. */
  lemma AtMostFourAttempts(steps: seq<Step>, generation: nat)
    ensures CountOf(Run(NEW_JOB, steps).attempts, generation) <= MAX_ATTEMPTS
  {
    RunKeeps(NEW_JOB, steps);
  }

  /** Whenever an attempt of a running job ends, there is at least one to look the delay up by. */
  lemma BackoffInRange(steps: seq<Step>)
    requires Run(NEW_JOB, steps).state.Running?
    ensures 1 <= CountOf(Run(NEW_JOB, steps).attempts, Run(NEW_JOB, steps).generation) <= MAX_ATTEMPTS
  {
    RunKeeps(NEW_JOB, steps);
  }

  /** At most one publication is staged, and only while the job is pending or running. */
  lemma AtMostOneStaged(steps: seq<Step>, p: nat, q: nat)
    requires p < |Run(NEW_JOB, steps).publications| && q < |Run(NEW_JOB, steps).publications|
    requires Run(NEW_JOB, steps).publications[p].Staged? && Run(NEW_JOB, steps).publications[q].Staged?
    ensures p == q && (Run(NEW_JOB, steps).state.Pending? || Run(NEW_JOB, steps).state.Running?)
  {
    RunKeeps(NEW_JOB, steps);
  }

  /** Once an attempt has ended, however that came about, no lease on it can be renewed, fail or succeed the job in any later run. */
  lemma OldLeaseIsDead(steps: seq<Step>, more: seq<Step>, lease: Lease, owner: string, now: int)
    requires lease.attempt < |Run(NEW_JOB, steps).attempts| && !Run(NEW_JOB, steps).attempts[lease.attempt].state.AttemptRunning?
    ensures !Renewable(Run(Run(NEW_JOB, steps), more), lease, owner, now)
    ensures !Current(Run(Run(NEW_JOB, steps), more), lease.attempt, lease.token)
  {
    RunKeeps(NEW_JOB, steps);
    RunKeeps(Run(NEW_JOB, steps), more);
  }

  /** Only the lease of the latest claim can be renewed, and only under its token. */
  lemma OnlyLatestRenews(steps: seq<Step>, lease: Lease, owner: string, now: int)
    requires Renewable(Run(NEW_JOB, steps), lease, owner, now)
    ensures lease.attempt == |Run(NEW_JOB, steps).attempts| - 1
    ensures lease.token == MaxToken(Run(NEW_JOB, steps).attempts) == lease.attempt + 1 + Run(NEW_JOB, steps).cancels
  {
    RunKeeps(NEW_JOB, steps);
    MaxTokenIs(Run(NEW_JOB, steps).attempts);
  }

  /**
   What a failure that may be retried leads to, by the number of the running
   attempt within its generation: one, five and thirty minutes (times the spread),
   then the dead letters.
  */
  lemma RetryLadder(steps: seq<Step>, now: int, percent: int)
    requires Run(NEW_JOB, steps).state.Running?
    ensures RetryOutcome(Run(NEW_JOB, steps), now, percent)
  {
    RunKeeps(NEW_JOB, steps);
    LadderByCycle(Run(NEW_JOB, steps), now, percent);
  }

  predicate RetryOutcome(j: Job, now: int, percent: int) {
    j.attempts != [] &&
    var last := j.attempts[|j.attempts| - 1];
    var after := Fail(j, |j.attempts| - 1, last.token, true, now, percent);
    match last.cycle
    case 1 => after.state.RetryWait? && after.next == Some(now + 60 * percent / 100)
    case 2 => after.state.RetryWait? && after.next == Some(now + 300 * percent / 100)
    case 3 => after.state.RetryWait? && after.next == Some(now + 1800 * percent / 100)
    case _ => last.cycle == MAX_ATTEMPTS && after.state.DeadLetter? && after.next == None
  }

  lemma LadderByCycle(j: Job, now: int, percent: int)
    requires Inv(j) && j.state.Running?
    ensures RetryOutcome(j, now, percent)
  {
    assert NumberedInCycle(j.attempts, |j.attempts| - 1);
    assert CountOf(j.attempts, j.generation) == j.attempts[|j.attempts| - 1].cycle;
  }
}

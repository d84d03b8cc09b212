/**
 The durable rows of one chat generation and every transaction that moves them
 (app/chat/worker.py, generation.py, ports.py, leases.py, events.py).

 Each function is one committed transaction: from the rows before to the rows
 after. A guard that fails, a row that is missing and an exception that rolls
 back all leave the rows as they were. Executions are named by their position
 in `executions`, which is also their order of creation.
*/
module Generation {
  import opened Options
  import opened Rouge

  const EXECUTION_LEASE_SECONDS := 90
  const MAX_PHYSICAL_EXECUTIONS := 3
  const FIRST_FENCING_TOKEN := 1
  const NEAR_DUPLICATE: real := 0.92

  datatype Status = Running | StopRequested | Completed | Failed | Stopped {
    predicate Active() { Running? || StopRequested? }
  }

  datatype StopReason = ManualRequest | ClientDisconnected | AuthorizationRevoked

  datatype ErrorCode =
    | StateConflict | ProviderResultUnknown | SourceScopeChanged
    | DeadlineExceeded | RecoveryExhausted | OtherError(code: string)

  datatype Event =
    | Start | AbStart
    | Interim(what: string)  // stage, step, notice, delta
    | StopNote(reason: StopReason)
    | Answer(candidate: nat, content: seq<Token>)
    | Done | Error(code: ErrorCode) | StoppedBy(reason: StopReason)
    | CitationClick
  {
    predicate Terminal() { Done? || Error? || StoppedBy? }
  }

  datatype ExecutionStatus =
    | Queued | Leased | RetryWait | Expired | Reconciling | Settled | Broken | Cancelled
  {
    predicate Waiting() { Queued? || RetryWait? }
    predicate Live() { Waiting() || Leased? || Reconciling? }
  }

  /** `scopeRetries` is None when the stored JSON has no such key. */
  datatype Checkpoint = Checkpoint(phase: string, scopeRetries: Option<nat>)

  datatype Execution = Execution(
    attempt: nat, status: ExecutionStatus, fencing: nat, lease: Option<int>,
    checkpointVersion: nat, checkpoint: Option<Checkpoint>, nextAttempt: int)

  datatype MessageStatus = Generating | MessageCompleted | MessageFailed | MessageStopped
  datatype PairStatus = PairPending | PairOpen | PairVoted | PairExpired

  datatype Draft = Draft(candidate: nat, content: seq<Token>)

  /** A fencing token handed to a worker by a claim. */
  datatype Claimed = Claimed(execution: nat, token: nat)

  /**
   `claims` lists the tokens handed out so far and `requeues` counts provider
   reconciliations that made an execution runnable again. Both are the history
   the theorems speak about; no transaction reads them.
  */
  datatype Rows = Rows(
    status: Status, stopReason: Option<StopReason>, errorCode: Option<ErrorCode>,
    controlVersion: nat, deadline: int, disconnectDeadline: Option<int>,
    message: MessageStatus, body: seq<Token>, pair: Option<PairStatus>,
    executions: seq<Execution>, events: seq<Event>, leases: map<nat, int>,
    claims: seq<Claimed>, requeues: nat)

  datatype Config = Config(maxPhysical: nat, maxScopeRetries: nat, leaseSeconds: nat, graceSeconds: nat)

  // ---------------------------------------------------------------- shared reads and writes

  predicate HasTerminal(events: seq<Event>) {
    events != [] && (events[|events| - 1].Terminal() || HasTerminal(events[..|events| - 1]))
  }

  /** `_append_terminal`: a second terminal event is dropped. */
  function AppendTerminal(events: seq<Event>, event: Event): seq<Event> {
    if event.Terminal() && HasTerminal(events) then events else events + [event]
  }

  function WithExecution(r: Rows, e: nat, x: Execution): Rows {
    if e < |r.executions| then r.(executions := r.executions[e := x]) else r
  }

  predicate IsLeased(r: Rows, e: nat) {
    e < |r.executions| && r.executions[e].status.Leased?
  }

  predicate HoldsToken(r: Rows, e: nat, token: nat) {
    IsLeased(r, e) && r.executions[e].fencing == token
  }

  predicate FenceCurrent(r: Rows, e: nat, token: nat, controlVersion: nat) {
    HoldsToken(r, e, token) && r.controlVersion == controlVersion && r.status.Active()
  }

  /**
   `_fence_current`. Its locking read skips a row that another transaction has
   locked (the worker's own heartbeat, say), and then takes the fence for lost.
  */
  predicate FenceSeen(r: Rows, e: nat, token: nat, controlVersion: nat, skipped: bool) {
    !skipped && FenceCurrent(r, e, token, controlVersion)
  }

  function ScopeRetries(checkpoint: Option<Checkpoint>): nat {
    if checkpoint.Some? && checkpoint.value.scopeRetries.Some? then checkpoint.value.scopeRetries.value else 0
  }

  /** `_discard_unfinished_ab_pair`. */
  function DiscardPair(pair: Option<PairStatus>): Option<PairStatus> {
    if pair.None? || pair.value.PairVoted? then pair else Some(PairExpired)
  }

  function Release(x: Execution, status: ExecutionStatus): Execution {
    x.(status := status, lease := None)
  }

  function FailRows(r: Rows, code: ErrorCode): Rows {
    r.(status := Failed, errorCode := Some(code), message := MessageFailed,
       pair := DiscardPair(r.pair), events := AppendTerminal(r.events, Error(code)))
  }

  function StopRows(r: Rows, reason: StopReason): Rows {
    r.(status := Stopped, stopReason := Some(reason), message := MessageStopped,
       pair := DiscardPair(r.pair), events := AppendTerminal(r.events, StoppedBy(reason)))
  }

  function RequestStop(r: Rows, reason: StopReason): Rows {
    r.(status := StopRequested, stopReason := Some(reason), controlVersion := r.controlVersion + 1)
  }

  // ---------------------------------------------------------------- the user's side

  function Create(now: int, deadline: int, withPair: bool): Rows {
    Rows(Running, None, None, 1, deadline, None, Generating, [],
         if withPair then Some(PairPending) else None,
         [Execution(1, Queued, FIRST_FENCING_TOKEN, None, 0, None, now)],
         if withPair then [Start, AbStart] else [Start], map[], [], 0)
  }

  function Stop(r: Rows): Rows {
    if r.status.Running? then RequestStop(r, ManualRequest) else r
  }

  /** `apply_revocation_effects` for one generation of the command's scope. */
  function Revoke(r: Rows, dropped: set<nat>, inScope: bool): Rows {
    var r := r.(leases := r.leases - dropped);
    if inScope && r.status.Running? then RequestStop(r, AuthorizationRevoked) else r
  }

  function Click(r: Rows): Rows {
    r.(events := r.events + [CitationClick])
  }

  function ExpirePair(r: Rows, pendingToo: bool): Rows {
    if r.pair == Some(PairOpen) || (pendingToo && r.pair == Some(PairPending)) then r.(pair := Some(PairExpired)) else r
  }

  /** The text of a published candidate; both were logged as answers when the pair was opened. */
  function CandidateText(events: seq<Event>, candidate: nat): (text: Option<seq<Token>>)
    ensures text.Some? ==> exists i :: 0 <= i < |events| && events[i] == Answer(candidate, text.value)
  {
    if events == [] then None
    else
      var n := |events| - 1;
      if events[n].Answer? && events[n].candidate == candidate then Some(events[n].content)
      else
        var text := CandidateText(events[..n], candidate);
        assert text.Some? ==> exists i :: 0 <= i < n && events[..n][i] == Answer(candidate, text.value) && events[i] == events[..n][i];
        text
  }

  /**
   `submit_ab_vote`: a candidate, or None for neither, which empties the message.
   A late vote raises, which also rolls back its own expiring update.
  */
  function Vote(r: Rows, choice: Option<nat>, late: bool): Rows {
    if r.pair != Some(PairOpen) || late then r
    else if choice.None? then r.(pair := Some(PairVoted), body := [])
    else
      var text := CandidateText(r.events, choice.value);
      if text.None? then r else r.(pair := Some(PairVoted), body := text.value)
  }

  // ---------------------------------------------------------------- subscription leases

  function OpenLease(r: Rows, token: nat, now: int, ttl: nat): Rows {
    if token in r.leases then r  // tokens are fresh and unique
    else r.(leases := r.leases[token := now + ttl], disconnectDeadline := None)
  }

  function RenewLease(r: Rows, token: nat, now: int, ttl: nat): Rows {
    if token in r.leases && r.leases[token] > now then r.(leases := r.leases[token := now + ttl]) else r
  }

  function CloseLease(r: Rows, token: nat, now: int, grace: nat): Rows {
    if token !in r.leases then r
    else
      var left := r.leases - {token};
      r.(leases := left,
         disconnectDeadline := if left == map[] && r.status.Active() then Some(now + grace) else r.disconnectDeadline)
  }

  predicate HasActiveLease(r: Rows, now: int) {
    exists token :: token in r.leases && r.leases[token] > now
  }

  // ---------------------------------------------------------------- the worker's side

  /** `_claim_execution`, once the row `e` is the one selected. */
  function Claim(cfg: Config, r: Rows, e: nat, now: int): Rows {
    if e >= |r.executions| || !r.executions[e].status.Waiting() || r.executions[e].nextAttempt > now
       || (exists i :: 0 <= i < |r.executions| && r.executions[i].status.Leased?) then r
    else
      var x := r.executions[e];
      if !r.status.Active() then WithExecution(r, e, x.(status := Cancelled))
      else
        r.(executions := r.executions[e := x.(status := Leased, fencing := x.fencing + 1, lease := Some(now + cfg.leaseSeconds))],
           claims := r.claims + [Claimed(e, x.fencing + 1)])
  }

  function Heartbeat(cfg: Config, r: Rows, e: nat, token: nat, now: int): Rows {
    if HoldsToken(r, e, token) then
      WithExecution(r, e, r.executions[e].(lease := Some(now + cfg.leaseSeconds)))
    else r
  }

  predicate CheckpointCommits(r: Rows, e: nat, token: nat, controlVersion: nat) {
    HoldsToken(r, e, token) && r.controlVersion == controlVersion && r.status.Running?
  }

  /** `_persist_checkpoint`: the stored scope retry count is merged into the new checkpoint. */
  function SaveCheckpoint(r: Rows, e: nat, token: nat, controlVersion: nat, phase: string): Rows {
    if CheckpointCommits(r, e, token, controlVersion) then
      var x := r.executions[e];
      var kept := if x.checkpoint.Some? then x.checkpoint.value.scopeRetries else None;
      WithExecution(r, e, x.(checkpointVersion := x.checkpointVersion + 1, checkpoint := Some(Checkpoint(phase, kept))))
    else r
  }

  /** `_emit_stage`, `_emit_step`, `_emit_notice`, `_emit_delta`. */
  function Emit(r: Rows, e: nat, token: nat, controlVersion: nat, what: string, skipped: bool): Rows {
    if FenceSeen(r, e, token, controlVersion, skipped) then r.(events := r.events + [Interim(what)]) else r
  }

  /** `_stop_terminal_in_transaction`: by execution id, without looking at the token. */
  function StopExecution(r: Rows, e: nat, reason: StopReason): Rows {
    var stopped := StopRows(r, reason);
    if e < |r.executions| then WithExecution(stopped, e, Release(r.executions[e], Cancelled)) else stopped
  }

  function StopClaimed(r: Rows, e: nat, reason: StopReason): Rows {
    if r.status.Active() then StopExecution(r, e, reason) else r
  }

  function CancelStale(r: Rows, e: nat): Rows {
    if r.status.StopRequested? then
      StopExecution(r, e, if r.stopReason.Some? then r.stopReason.value else ManualRequest)
    else if IsLeased(r, e) then WithExecution(r, e, Release(r.executions[e], Cancelled))
    else r
  }

  /** `_persist_effort_upgrade`; the effort columns themselves are not part of the rows here. */
  function UpgradeEffort(r: Rows, e: nat, token: nat, controlVersion: nat, skipped: bool): Rows {
    if FenceSeen(r, e, token, controlVersion, skipped) && r.status.Running? then r else CancelStale(r, e)
  }

  ghost predicate OpensPair(r: Rows, drafts: seq<Draft>) {
    r.pair.Some? && |drafts| == 2 && RougeL(drafts[0].content, drafts[1].content) < NEAR_DUPLICATE
  }

  function Answers(drafts: seq<Draft>): (answers: seq<Event>)
    ensures |answers| == |drafts|
    ensures forall i :: 0 <= i < |drafts| ==> answers[i] == Answer(drafts[i].candidate, drafts[i].content)
  {
    seq(|drafts|, i requires 0 <= i < |drafts| => Answer(drafts[i].candidate, drafts[i].content))
  }

  predicate PublishCommits(r: Rows, e: nat, token: nat, controlVersion: nat, drafts: seq<Draft>, scopeCurrent: bool, skipped: bool) {
    FenceSeen(r, e, token, controlVersion, skipped) && r.status.Running? && scopeCurrent && drafts != []
  }

  /** The committing half of `_publish`; with `opens` both answers of the A/B pair are shown. */
  function Published(r: Rows, e: nat, drafts: seq<Draft>, opens: bool): Rows
    requires drafts != [] && e < |r.executions|
  {
    r.(status := Completed, stopReason := None, message := MessageCompleted,
       body := if opens then [] else drafts[0].content,
       pair := if r.pair.None? then None else Some(if opens then PairOpen else PairExpired),
       executions := r.executions[e := r.executions[e].(status := Settled, checkpoint := None)],
       events := AppendTerminal(r.events + Answers(if opens then drafts else drafts[..1]), Done))
  }

  ghost function Publish(r: Rows, e: nat, token: nat, controlVersion: nat, drafts: seq<Draft>, scopeCurrent: bool, skipped: bool): Rows {
    if !FenceSeen(r, e, token, controlVersion, skipped) || !r.status.Running? then CancelStale(r, e)
    else if !scopeCurrent || drafts == [] then r
    else Published(r, e, drafts, OpensPair(r, drafts))
  }

  /** `_fail_execution`. */
  function Fail(cfg: Config, r: Rows, e: nat, code: ErrorCode, now: int): Rows {
    if code.StateConflict? then CancelStale(r, e)
    else if r.status.StopRequested? then
      StopExecution(r, e, if r.stopReason.Some? then r.stopReason.value else AuthorizationRevoked)
    else if !r.status.Running? then r
    else if code.ProviderResultUnknown? then
      if IsLeased(r, e) then WithExecution(r, e, r.executions[e].(status := Reconciling)) else r
    else
      var checkpoint := if e < |r.executions| then r.executions[e].checkpoint else None;
      if code.SourceScopeChanged? && ScopeRetries(checkpoint) < cfg.maxScopeRetries then
        if !IsLeased(r, e) then r
        else
          var phase := if checkpoint.Some? then checkpoint.value.phase else "";
          WithExecution(r, e, Release(r.executions[e], RetryWait).(
            nextAttempt := now, checkpoint := Some(Checkpoint(phase, Some(ScopeRetries(checkpoint) + 1)))))
      else
        var failed := FailRows(r, code);
        if e < |r.executions| then WithExecution(failed, e, r.executions[e].(status := Broken, checkpoint := None)) else failed
  }

  // ---------------------------------------------------------------- maintenance

  function CancelUnfinished(executions: seq<Execution>): (done: seq<Execution>)
    ensures |done| == |executions|
    ensures forall i :: 0 <= i < |executions| ==>
      done[i] == if executions[i].status.Waiting() || executions[i].status.Leased? then Release(executions[i], Cancelled) else executions[i]
  {
    seq(|executions|, i requires 0 <= i < |executions| =>
      if executions[i].status.Waiting() || executions[i].status.Leased? then Release(executions[i], Cancelled) else executions[i])
  }

  predicate GraceOver(r: Rows, now: int) {
    r.status.Running? && r.disconnectDeadline.Some? && r.disconnectDeadline.value <= now
  }

  /** `_reap_disconnect_grace`. */
  function Reap(r: Rows, now: int): Rows {
    if !GraceOver(r, now) then r
    else if HasActiveLease(r, now) then r.(disconnectDeadline := None)
    else Reaped(r)
  }

  /** The stop request is written and noted before the same transaction closes the generation. */
  function Reaped(r: Rows): Rows {
    var noted := RequestStop(r, ClientDisconnected).(events := r.events + [StopNote(ClientDisconnected)]);
    StopRows(noted, ClientDisconnected).(executions := CancelUnfinished(r.executions))
  }

  /**
   `_terminalize_unrecoverable`. Its caller has just expired the one leased
   execution, so the closing update of leased executions finds no row.
  */
  function Terminalize(r: Rows, now: int): Rows {
    if r.status.Active() then
      FailRows(r, if r.deadline <= now then DeadlineExceeded else RecoveryExhausted)
    else r
  }

  predicate LeaseOver(x: Execution, now: int) {
    x.status.Leased? && (x.lease.None? || x.lease.value < now)
  }

  /** One iteration of `_recover_expired_executions`. */
  function RecoverOne(cfg: Config, r: Rows, e: nat, now: int): Rows {
    if e >= |r.executions| || !LeaseOver(r.executions[e], now) then r
    else
      var x := r.executions[e];
      var expired := WithExecution(r, e, Release(x, Expired).(fencing := x.fencing + 1));
      if !r.status.Active() || r.deadline <= now || |r.executions| >= cfg.maxPhysical then Terminalize(expired, now)
      else
        expired.(executions := expired.executions + [
          Execution(x.attempt + 1, Queued, x.fencing + 1, None, x.checkpointVersion, x.checkpoint, now)])
  }

  /** The rows `0..n` that were selected before the loop, in order. */
  function RecoverUpTo(cfg: Config, r: Rows, n: nat, now: int): Rows {
    if n == 0 then r else RecoverOne(cfg, RecoverUpTo(cfg, r, n - 1, now), n - 1, now)
  }

  function Recover(cfg: Config, r: Rows, now: int): Rows {
    RecoverUpTo(cfg, r, |r.executions|, now)
  }

  /** One iteration of `_expire_provider_reconciling_executions`. */
  function ExpireReconcilingOne(r: Rows, e: nat, now: int): Rows {
    if e >= |r.executions| || !r.executions[e].status.Reconciling? || !r.status.Running? || r.deadline > now then r
    else
      WithExecution(FailRows(r, ProviderResultUnknown), e, Release(r.executions[e], Broken).(checkpoint := None))
  }

  function ExpireReconcilingUpTo(r: Rows, n: nat, now: int): Rows {
    if n == 0 then r else ExpireReconcilingOne(ExpireReconcilingUpTo(r, n - 1, now), n - 1, now)
  }

  function ExpireReconciling(r: Rows, now: int): Rows {
    ExpireReconcilingUpTo(r, |r.executions|, now)
  }

  /** A confirmed provider call (`recovered` names the checkpoint phase) or one confirmed as not sent. */
  function Reconcile(r: Rows, e: nat, recovered: Option<string>, now: int): Rows {
    if e >= |r.executions| || !r.executions[e].status.Reconciling? then r
    else
      var next := if recovered.Some? then Some(Checkpoint(recovered.value, None)) else None;
      r.(executions := r.executions[e := r.executions[e].(status := RetryWait, nextAttempt := now, checkpoint := next)],
         requeues := r.requeues + 1)
  }

  // ---------------------------------------------------------------- interleavings

  datatype UserStep =
    | StopStep
    | RevokeStep(dropped: set<nat>, inScope: bool)
    | ClickStep
    | ExpirePairStep(pendingToo: bool)
    | VoteStep(choice: Option<nat>, late: bool)
    | OpenLeaseStep(token: nat, now: int, ttl: nat)
    | RenewLeaseStep(token: nat, now: int, ttl: nat)
    | CloseLeaseStep(token: nat, now: int)

  datatype WorkerStep =
    | ClaimStep(e: nat, now: int)
    | HeartbeatStep(e: nat, token: nat, now: int)
    | CheckpointStep(e: nat, token: nat, controlVersion: nat, phase: string)
    | EmitStep(e: nat, token: nat, controlVersion: nat, what: string, skipped: bool)
    | UpgradeStep(e: nat, token: nat, controlVersion: nat, skipped: bool)
    | StopClaimedStep(e: nat, reason: StopReason)
    | PublishStep(e: nat, token: nat, controlVersion: nat, drafts: seq<Draft>, scopeCurrent: bool, skipped: bool)
    | FailStep(e: nat, code: ErrorCode, now: int)

  datatype MaintenanceStep =
    | ReapStep(now: int)
    | RecoverStep(now: int)
    | ExpireReconcilingStep(now: int)
    | ReconcileStep(e: nat, recovered: Option<string>, now: int)

  /**
   Worker arguments are arbitrary: a step may come from any past or present worker,
   in any order. What each worker really does is in `GenerationWorkers`.
  */
  datatype Step = User(user: UserStep) | Worker(worker: WorkerStep) | Maintenance(maintenance: MaintenanceStep)

  function ApplyUser(cfg: Config, r: Rows, step: UserStep): Rows {
    match step
    case StopStep => Stop(r)
    case RevokeStep(dropped, inScope) => Revoke(r, dropped, inScope)
    case ClickStep => Click(r)
    case ExpirePairStep(pendingToo) => ExpirePair(r, pendingToo)
    case VoteStep(choice, late) => Vote(r, choice, late)
    case OpenLeaseStep(token, now, ttl) => OpenLease(r, token, now, ttl)
    case RenewLeaseStep(token, now, ttl) => RenewLease(r, token, now, ttl)
    case CloseLeaseStep(token, now) => CloseLease(r, token, now, cfg.graceSeconds)
  }

  ghost function ApplyWorker(cfg: Config, r: Rows, step: WorkerStep): Rows {
    match step
    case ClaimStep(e, now) => Claim(cfg, r, e, now)
    case HeartbeatStep(e, token, now) => Heartbeat(cfg, r, e, token, now)
    case CheckpointStep(e, token, cv, phase) => SaveCheckpoint(r, e, token, cv, phase)
    case EmitStep(e, token, cv, what, skipped) => Emit(r, e, token, cv, what, skipped)
    case UpgradeStep(e, token, cv, skipped) => UpgradeEffort(r, e, token, cv, skipped)
    case StopClaimedStep(e, reason) => StopClaimed(r, e, reason)
    case PublishStep(e, token, cv, drafts, current, skipped) => Publish(r, e, token, cv, drafts, current, skipped)
    case FailStep(e, code, now) => Fail(cfg, r, e, code, now)
  }

  function ApplyMaintenance(cfg: Config, r: Rows, step: MaintenanceStep): Rows {
    match step
    case ReapStep(now) => Reap(r, now)
    case RecoverStep(now) => Recover(cfg, r, now)
    case ExpireReconcilingStep(now) => ExpireReconciling(r, now)
    case ReconcileStep(e, recovered, now) => Reconcile(r, e, recovered, now)
  }

  ghost function Apply(cfg: Config, r: Rows, step: Step): Rows {
    match step
    case User(u) => ApplyUser(cfg, r, u)
    case Worker(w) => ApplyWorker(cfg, r, w)
    case Maintenance(m) => ApplyMaintenance(cfg, r, m)
  }

  ghost function Run(cfg: Config, r: Rows, steps: seq<Step>): Rows {
    if steps == [] then r
    else Apply(cfg, Run(cfg, r, steps[..|steps| - 1]), steps[|steps| - 1])
  }
}

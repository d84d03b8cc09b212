/**
 The rows of one generation as the source changes them: in place, one
 transaction per method. Each method is tied to its transition in `Generation`,
 so every theorem of `GenerationTheorems` speaks about sequences of these calls.
*/
module GenerationStore {
  import opened Options
  import opened Generation
  import opened GenerationLaws
  import opened Rouge

  /** One row of each table; an assignment to a row below is one UPDATE of the source. */
  datatype GenerationRow = GenerationRow(
    status: Status, stopReason: Option<StopReason>, errorCode: Option<ErrorCode>,
    controlVersion: nat, deadline: int, disconnectDeadline: Option<int>)

  datatype MessageRow = MessageRow(status: MessageStatus, body: seq<Token>)

  class Store {
    const cfg: Config
    var generation: GenerationRow
    var message: MessageRow
    var pair: Option<PairStatus>
    var executions: seq<Execution>
    var events: seq<Event>
    var leases: map<nat, int>
    ghost var claims: seq<Claimed>
    ghost var requeues: nat

    ghost function View(): Rows
      reads this
    {
      Rows(generation.status, generation.stopReason, generation.errorCode, generation.controlVersion,
           generation.deadline, generation.disconnectDeadline, message.status, message.body,
           pair, executions, events, leases, claims, requeues)
    }

    constructor (cfg: Config, now: int, deadlineSeconds: nat, withPair: bool)
      ensures View() == Create(now, now + deadlineSeconds, withPair) && this.cfg == cfg
    {
      this.cfg := cfg;
      generation := GenerationRow(Running, None, None, 1, now + deadlineSeconds, None);
      message, leases := MessageRow(Generating, []), map[];
      executions := [Execution(1, Queued, FIRST_FENCING_TOKEN, None, 0, None, now)];
      events := [Start];
      pair := None;
      claims, requeues := [], 0;
      new;
      if withPair {
        pair := Some(PairPending);
        events := events + [AbStart];
      }
    }

    // -------------------------------------------------------------- the user's side

    method Stop()
      modifies this
      ensures View() == Generation.Stop(old(View()))
    {
      if generation.status.Running? {
        generation := generation.(
          status := StopRequested, stopReason := Some(ManualRequest), controlVersion := generation.controlVersion + 1);
      }
    }

    method Revoke(dropped: set<nat>, inScope: bool)
      modifies this
      ensures View() == Generation.Revoke(old(View()), dropped, inScope)
    {
      leases := leases - dropped;
      if inScope && generation.status.Running? {
        generation := generation.(
          status := StopRequested, stopReason := Some(AuthorizationRevoked), controlVersion := generation.controlVersion + 1);
      }
    }

    method Click()
      modifies this
      ensures View() == Generation.Click(old(View()))
    {
      events := events + [CitationClick];
    }

    method ExpirePair(pendingToo: bool)
      modifies this
      ensures View() == Generation.ExpirePair(old(View()), pendingToo)
    {
      if pair == Some(PairOpen) || (pendingToo && pair == Some(PairPending)) {
        pair := Some(PairExpired);
      }
    }

    method Vote(choice: Option<nat>, late: bool) returns (counted: bool)
      modifies this
      ensures View() == Generation.Vote(old(View()), choice, late)
      ensures counted <==> old(pair) == Some(PairOpen) && pair == Some(PairVoted)
    {
      if pair != Some(PairOpen) || late {
        return false;
      }
      var text := if choice.Some? then CandidateText(events, choice.value) else Some([]);
      if text.None? {
        return false;
      }
      message := message.(body := text.value);
      pair := Some(PairVoted);
      return true;
    }

    method OpenLease(token: nat, now: int, ttl: nat)
      modifies this
      ensures View() == Generation.OpenLease(old(View()), token, now, ttl)
    {
      if token !in leases {
        leases := leases[token := now + ttl];
        generation := generation.(disconnectDeadline := None);
      }
    }

    method RenewLease(token: nat, now: int, ttl: nat) returns (live: bool)
      modifies this
      ensures View() == Generation.RenewLease(old(View()), token, now, ttl)
      ensures live <==> token in old(leases) && old(leases)[token] > now
    {
      if token !in leases || leases[token] <= now {
        return false;
      }
      leases := leases[token := now + ttl];
      return true;
    }

    method CloseLease(token: nat, now: int)
      modifies this
      ensures View() == Generation.CloseLease(old(View()), token, now, cfg.graceSeconds)
    {
      if token !in leases {
        return;
      }
      leases := leases - {token};
      if leases == map[] && generation.status.Active() {
        generation := generation.(disconnectDeadline := Some(now + cfg.graceSeconds));
      }
    }

    // -------------------------------------------------------------- row helpers

    predicate Fenced(e: nat, token: nat, controlVersion: nat)
      reads this
    {
      && e < |executions| && executions[e].fencing == token && executions[e].status.Leased?
      && generation.controlVersion == controlVersion && generation.status.Active()
    }

    /** Appends the published answers one by one. */
    static method AppendAnswers(before: seq<Event>, shown: seq<Draft>) returns (log: seq<Event>)
      ensures log == before + Answers(shown)
    {
      log := before;
      for i := 0 to |shown|
        invariant log == before + Answers(shown)[..i]
      {
        log := AppendTerminal(log, Answer(shown[i].candidate, shown[i].content));
      }
      assert Answers(shown)[..|shown|] == Answers(shown);
    }

    static method CancelRows(before: seq<Execution>) returns (rows: seq<Execution>)
      ensures rows == CancelUnfinished(before)
    {
      rows := before;
      for i := 0 to |before|
        invariant |rows| == |before|
        invariant forall k :: i <= k < |before| ==> rows[k] == before[k]
        invariant forall k :: 0 <= k < i ==> rows[k] == CancelUnfinished(before)[k]
      {
        var x := rows[i];
        if x.status.Waiting() || x.status.Leased? {
          rows := rows[i := x.(status := Cancelled, lease := None)];
        }
      }
    }

    method CloseFailed(code: ErrorCode)
      modifies this
      ensures View() == FailRows(old(View()), code)
    {
      generation := generation.(status := Failed, errorCode := Some(code));
      message := message.(status := MessageFailed);
      pair := DiscardPair(pair);
      events := AppendTerminal(events, Error(code));
    }

    method CloseStopped(e: nat, reason: StopReason)
      modifies this
      ensures View() == StopExecution(old(View()), e, reason)
    {
      generation := generation.(status := Stopped, stopReason := Some(reason));
      message := message.(status := MessageStopped);
      if e < |executions| {
        executions := executions[e := executions[e].(status := Cancelled, lease := None)];
      }
      pair := DiscardPair(pair);
      events := AppendTerminal(events, StoppedBy(reason));
    }

    method CancelStale(e: nat)
      modifies this
      ensures View() == Generation.CancelStale(old(View()), e)
    {
      if generation.status.StopRequested? {
        CloseStopped(e, if generation.stopReason.Some? then generation.stopReason.value else ManualRequest);
        return;
      }
      if e < |executions| && executions[e].status.Leased? {
        executions := executions[e := executions[e].(status := Cancelled, lease := None)];
      }
    }

    // -------------------------------------------------------------- the worker's side

    method Claim(e: nat, now: int) returns (claimed: bool)
      modifies this
      ensures View() == Generation.Claim(cfg, old(View()), e, now)
      ensures claimed <==> |claims| > |old(claims)|
    {
      claimed := false;
      if e >= |executions| || !executions[e].status.Waiting() || executions[e].nextAttempt > now
         || (exists i :: 0 <= i < |executions| && executions[i].status.Leased?) {
        return;
      }
      var x := executions[e];
      if !generation.status.Active() {
        executions := executions[e := x.(status := Cancelled)];
        return;
      }
      executions := executions[e := x.(status := Leased, fencing := x.fencing + 1, lease := Some(now + cfg.leaseSeconds))];
      claims := claims + [Claimed(e, x.fencing + 1)];
      claimed := true;
    }

    method Heartbeat(e: nat, token: nat, now: int) returns (renewed: bool)
      modifies this
      ensures View() == Generation.Heartbeat(cfg, old(View()), e, token, now)
      ensures renewed <==> HoldsToken(old(View()), e, token)
    {
      renewed := e < |executions| && executions[e].status.Leased? && executions[e].fencing == token;
      if renewed {
        executions := executions[e := executions[e].(lease := Some(now + cfg.leaseSeconds))];
      }
    }

    method SaveCheckpoint(e: nat, token: nat, controlVersion: nat, phase: string) returns (saved: bool)
      modifies this
      ensures View() == Generation.SaveCheckpoint(old(View()), e, token, controlVersion, phase)
      ensures saved <==> CheckpointCommits(old(View()), e, token, controlVersion)
    {
      if e >= |executions| {
        return false;
      }
      var x := executions[e];
      var merged := Checkpoint(phase, None);
      if x.checkpoint.Some? && x.checkpoint.value.scopeRetries.Some? {
        merged := merged.(scopeRetries := x.checkpoint.value.scopeRetries);
      }
      saved := Fenced(e, token, controlVersion) && generation.status.Running?;
      if saved {
        executions := executions[e := x.(checkpointVersion := x.checkpointVersion + 1, checkpoint := Some(merged))];
      }
    }

    method Emit(e: nat, token: nat, controlVersion: nat, what: string, skipped: bool) returns (emitted: bool)
      modifies this
      ensures View() == Generation.Emit(old(View()), e, token, controlVersion, what, skipped)
      ensures emitted <==> FenceSeen(old(View()), e, token, controlVersion, skipped)
    {
      emitted := !skipped && Fenced(e, token, controlVersion);
      if emitted {
        events := AppendTerminal(events, Interim(what));
      }
    }

    method UpgradeEffort(e: nat, token: nat, controlVersion: nat, skipped: bool) returns (upgraded: bool)
      modifies this
      ensures View() == Generation.UpgradeEffort(old(View()), e, token, controlVersion, skipped)
      ensures upgraded <==> FenceSeen(old(View()), e, token, controlVersion, skipped) && old(View()).status.Running?
    {
      upgraded := !skipped && Fenced(e, token, controlVersion) && generation.status.Running?;
      if !upgraded {
        CancelStale(e);
      }
    }

    method StopClaimed(e: nat, reason: StopReason)
      modifies this
      ensures View() == Generation.StopClaimed(old(View()), e, reason)
    {
      if generation.status.Active() {
        CloseStopped(e, reason);
      }
    }

    method Publish(e: nat, token: nat, controlVersion: nat, drafts: seq<Draft>, scopeCurrent: bool, skipped: bool)
      modifies this
      ensures View() == Generation.Publish(old(View()), e, token, controlVersion, drafts, scopeCurrent, skipped)
    {
      if skipped || !Fenced(e, token, controlVersion) || !generation.status.Running? {
        CancelStale(e);
        return;
      }
      if !scopeCurrent || drafts == [] {
        return;
      }
      var opens := pair.Some? && |drafts| == 2;
      if opens {
        var similarity := RougeScore(drafts[0].content, drafts[1].content);
        opens := similarity < NEAR_DUPLICATE;
      }
      CommitPublication(e, drafts, opens);
    }

    method CommitPublication(e: nat, drafts: seq<Draft>, opens: bool)
      requires drafts != [] && e < |executions|
      modifies this
      ensures View() == Published(old(View()), e, drafts, opens)
    {
      var shown := if opens then drafts else drafts[..1];
      var log := AppendAnswers(events, shown);
      events := AppendTerminal(log, Done);
      if pair.Some? {
        pair := Some(if opens then PairOpen else PairExpired);
      }
      message := MessageRow(MessageCompleted, if opens then [] else drafts[0].content);
      generation := generation.(status := Completed, stopReason := None);
      executions := executions[e := executions[e].(status := Settled, checkpoint := None)];
    }

    method Fail(e: nat, code: ErrorCode, now: int)
      modifies this
      ensures View() == Generation.Fail(cfg, old(View()), e, code, now)
    {
      if code.StateConflict? {
        CancelStale(e);
        return;
      }
      if generation.status.StopRequested? {
        CloseStopped(e, if generation.stopReason.Some? then generation.stopReason.value else AuthorizationRevoked);
        return;
      }
      if !generation.status.Running? {
        return;
      }
      var known := e < |executions|;
      if code.ProviderResultUnknown? {
        if known && executions[e].status.Leased? {
          executions := executions[e := executions[e].(status := Reconciling)];
        }
        return;
      }
      if code.SourceScopeChanged? {
        var retries := if known then ScopeRetries(executions[e].checkpoint) else 0;
        if retries < cfg.maxScopeRetries {
          if known && executions[e].status.Leased? {
            var x := executions[e];
            var phase := if x.checkpoint.Some? then x.checkpoint.value.phase else "";
            executions := executions[e := x.(status := RetryWait, lease := None, nextAttempt := now,
                                             checkpoint := Some(Checkpoint(phase, Some(retries + 1))))];
          }
          return;
        }
      }
      if known {
        executions := executions[e := executions[e].(status := Broken, checkpoint := None)];
      }
      CloseFailed(code);
    }

    // -------------------------------------------------------------- maintenance

    method Reap(now: int) returns (stopped: bool)
      modifies this
      ensures View() == Generation.Reap(old(View()), now)
      ensures stopped ==> !HasActiveLease(old(View()), now)
    {
      stopped := false;
      if !generation.status.Running? || generation.disconnectDeadline.None? || generation.disconnectDeadline.value > now {
        return;
      }
      if exists token :: token in leases && leases[token] > now {
        generation := generation.(disconnectDeadline := None);
        return;
      }
      CloseReaped();
      stopped := true;
    }

    method CloseReaped()
      modifies this
      ensures View() == Reaped(old(View()))
    {
      generation := generation.(
          status := StopRequested, stopReason := Some(ClientDisconnected), controlVersion := generation.controlVersion + 1);
      events := AppendTerminal(events, StopNote(ClientDisconnected));
      pair := DiscardPair(pair);
      generation := generation.(status := Stopped);
      events := AppendTerminal(events, StoppedBy(ClientDisconnected));
      message := message.(status := MessageStopped);
      var rows := CancelRows(executions);
      executions := rows;
    }

    method Recover(now: int)
      modifies this
      ensures View() == Generation.Recover(cfg, old(View()), now)
    {
      var selected := |executions|;
      for e := 0 to selected
        invariant |executions| >= selected
        invariant View() == RecoverUpTo(cfg, old(View()), e, now)
      {
        RecoverOne(e, now);
      }
    }

    method RecoverOne(e: nat, now: int)
      requires e < |executions|
      modifies this
      ensures View() == Generation.RecoverOne(cfg, old(View()), e, now)
      ensures |executions| >= |old(executions)|
    {
      var x := executions[e];
      if !x.status.Leased? || (x.lease.Some? && x.lease.value >= now) {
        return;
      }
      executions := executions[e := x.(status := Expired, fencing := x.fencing + 1, lease := None)];
      if !generation.status.Active() || generation.deadline <= now || |executions| >= cfg.maxPhysical {
        if generation.status.Active() {
          CloseFailed(if generation.deadline <= now then DeadlineExceeded else RecoveryExhausted);
        }
        return;
      }
      executions := executions + [
        Execution(x.attempt + 1, Queued, x.fencing + 1, None, x.checkpointVersion, x.checkpoint, now)];
    }

    method ExpireReconciling(now: int)
      modifies this
      ensures View() == Generation.ExpireReconciling(old(View()), now)
    {
      for e := 0 to |executions|
        invariant |executions| == |old(executions)|
        invariant View() == ExpireReconcilingUpTo(old(View()), e, now)
      {
        if executions[e].status.Reconciling? && generation.status.Running? && generation.deadline <= now {
          CloseFailed(ProviderResultUnknown);
          executions := executions[e := executions[e].(status := Broken, lease := None, checkpoint := None)];
        }
      }
    }

    method Reconcile(e: nat, recovered: Option<string>, now: int)
      modifies this
      ensures View() == Generation.Reconcile(old(View()), e, recovered, now)
    {
      if e < |executions| && executions[e].status.Reconciling? {
        var next := None;
        if recovered.Some? {
          next := Some(Checkpoint(recovered.value, None));
        }
        executions := executions[e := executions[e].(status := RetryWait, nextAttempt := now, checkpoint := next)];
        requeues := requeues + 1;
      }
    }

    // -------------------------------------------------------------- any calls, in any order

    /** The shape of the rows that every theorem about runs rests on. */
    ghost predicate Valid()
      reads this
    {
      Inv(cfg, View())
    }

    method PerformUser(step: UserStep)
      modifies this
      ensures View() == ApplyUser(cfg, old(View()), step)
    {
      match step
      case StopStep => Stop();
      case RevokeStep(dropped, inScope) => Revoke(dropped, inScope);
      case ClickStep => Click();
      case ExpirePairStep(pendingToo) => ExpirePair(pendingToo);
      case VoteStep(choice, late) => var counted := Vote(choice, late);
      case OpenLeaseStep(token, now, ttl) => OpenLease(token, now, ttl);
      case RenewLeaseStep(token, now, ttl) => var live := RenewLease(token, now, ttl);
      case CloseLeaseStep(token, now) => CloseLease(token, now);
    }

    method PerformWorker(step: WorkerStep)
      modifies this
      ensures View() == ApplyWorker(cfg, old(View()), step)
    {
      match step
      case ClaimStep(e, now) => var claimed := Claim(e, now);
      case HeartbeatStep(e, token, now) => var renewed := Heartbeat(e, token, now);
      case CheckpointStep(e, token, cv, phase) => var saved := SaveCheckpoint(e, token, cv, phase);
      case EmitStep(e, token, cv, what, skipped) => var emitted := Emit(e, token, cv, what, skipped);
      case UpgradeStep(e, token, cv, skipped) => var upgraded := UpgradeEffort(e, token, cv, skipped);
      case StopClaimedStep(e, reason) => StopClaimed(e, reason);
      case PublishStep(e, token, cv, drafts, current, skipped) => Publish(e, token, cv, drafts, current, skipped);
      case FailStep(e, code, now) => Fail(e, code, now);
    }

    method PerformMaintenance(step: MaintenanceStep)
      modifies this
      ensures View() == ApplyMaintenance(cfg, old(View()), step)
    {
      match step
      case ReapStep(now) => var stopped := Reap(now);
      case RecoverStep(now) => Recover(now);
      case ExpireReconcilingStep(now) => ExpireReconciling(now);
      case ReconcileStep(e, recovered, now) => Reconcile(e, recovered, now);
    }

    method Perform(step: Step)
      requires Valid()
      modifies this
      ensures Valid() && View() == Apply(cfg, old(View()), step)
    {
      StepKeepsInv(cfg, View(), step);
      match step
      case User(u) => PerformUser(u);
      case Worker(w) => PerformWorker(w);
      case Maintenance(m) => PerformMaintenance(m);
    }

    /** Any sequence of calls, by any users, workers and maintenance, is a run. */
    method PerformAll(steps: seq<Step>)
      requires Valid()
      modifies this
      ensures Valid() && View() == Run(cfg, old(View()), steps)
    {
      for i := 0 to |steps|
        invariant Valid() && View() == Run(cfg, old(View()), steps[..i])
      {
        assert steps[..i + 1][..i] == steps[..i];
        Perform(steps[i]);
      }
      assert steps[..|steps|] == steps;
    }
  }
}

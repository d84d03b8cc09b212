/** The promises of the chat generation lifecycle, over every interleaving. */
module GenerationTheorems {
  import opened Options
  import opened Generation
  import opened GenerationLaws

  ghost predicate Reachable(cfg: Config, r: Rows) {
    exists now, deadline, withPair, steps :: r == Run(cfg, Create(now, deadline, withPair), steps)
  }

  lemma CreateFace(now: int, deadline: int, withPair: bool)
    ensures FaceInv(Create(now, deadline, withPair))
  {
    var events := if withPair then [Start, AbStart] else [Start];
    VisibleNoClicks(events);
    assert AllOpening(events);
    assert FaceHolds(Face(Running, None, None, 1, Generating, [], if withPair then Some(PairPending) else None, events));
  }

  lemma CreateWork(cfg: Config, now: int, deadline: int, withPair: bool)
    ensures WorkInv(cfg, Create(now, deadline, withPair))
  {
    assert 0 * (1 + cfg.maxScopeRetries) == 0;
  }

  lemma CreateEstablishesInv(cfg: Config, now: int, deadline: int, withPair: bool)
    ensures Inv(cfg, Create(now, deadline, withPair))
  {
    CreateFace(now, deadline, withPair);
    CreateWork(cfg, now, deadline, withPair);
  }

  lemma ReachableInv(cfg: Config, r: Rows)
    requires Reachable(cfg, r)
    ensures Inv(cfg, r)
  {
    var now, deadline, withPair, steps :| r == Run(cfg, Create(now, deadline, withPair), steps);
    CreateEstablishesInv(cfg, now, deadline, withPair);
    RunKeepsInv(cfg, Create(now, deadline, withPair), steps);
  }

  lemma {:induction false} RunConcat(cfg: Config, r: Rows, a: seq<Step>, b: seq<Step>)
    ensures Run(cfg, r, a + b) == Run(cfg, Run(cfg, r, a), b)
  {
    if b == [] {
      assert a + b == a;
    } else {
      var n := |b| - 1;
      assert (a + b)[..|a| + n] == a + b[..n];
      RunConcat(cfg, r, a, b[..n]);
    }
  }

  lemma ReachableRun(cfg: Config, r: Rows, steps: seq<Step>)
    requires Reachable(cfg, r)
    ensures Reachable(cfg, Run(cfg, r, steps))
  {
    var now, deadline, withPair, before :| r == Run(cfg, Create(now, deadline, withPair), before);
    RunConcat(cfg, Create(now, deadline, withPair), before, steps);
  }

  // ---------------------------------------------------------------- the event log

  /** At most one terminal event is replayed, it is the last one, and its kind names the row's status. */
  lemma LogTellsStatus(cfg: Config, r: Rows)
    requires Reachable(cfg, r)
    ensures var v := Visible(r.events);
      && (forall i :: 0 <= i < |v| && v[i].Terminal() ==> i == |v| - 1)
      && (r.status.Active() <==> v == [] || !Last(v).Terminal())
      && (r.status.Completed? <==> v != [] && Last(v).Done?)
      && (r.status.Failed? <==> v != [] && Last(v).Error? && Some(Last(v).code) == r.errorCode)
      && (r.status.Stopped? <==> v != [] && Last(v).StoppedBy? && Some(Last(v).reason) == r.stopReason)
  {
    ReachableInv(cfg, r);
    forall i | 0 <= i < |FaceOf(r).log| - 1 ensures !FaceOf(r).log[i].Terminal() {
      LogBeforeEnd(FaceOf(r), i);
    }
  }

  /** How the log ends says how the generation stands. */
  lemma LogEnds(f: Face)
    requires FaceHolds(f)
    ensures f.log == [] ==> f.status.Active()
    ensures f.log != [] ==> match f.status
                            case Completed => Last(f.log).Done?
                            case Failed => Last(f.log).Error? && Some(Last(f.log).code) == f.errorCode
                            case Stopped => Last(f.log).StoppedBy? && Some(Last(f.log).reason) == f.stopReason
                            case _ => Opening(Last(f.log))
  {}

  /** Before the last event of the log there are opening events and, in a completed one, its answers. */
  lemma LogBeforeEnd(f: Face, i: nat)
    requires FaceHolds(f) && i < |f.log| - 1
    ensures Opening(f.log[i]) || (f.log[i].Answer? && f.status.Completed? && i >= |f.log| - 3)
  {
    var v := f.log;
    if f.status.Completed? {
      var k := if CompletedShape(v, 2) then 2 else 1;
      if i < |v| - 1 - k { assert v[i] == v[..|v| - 1 - k][i]; }
    } else if !f.status.Active() {
      assert v[i] == v[..|v| - 1][i];
    }
  }

  /** Answers are replayed exactly for completed generations, one or two of them, right before `done`. */
  lemma AnswersOnlyWhenCompleted(cfg: Config, r: Rows, i: nat)
    requires Reachable(cfg, r) && i < |Visible(r.events)|
    ensures Visible(r.events)[i].Answer? ==> r.status.Completed? && |Visible(r.events)| - 3 <= i <= |Visible(r.events)| - 2
    ensures r.status.Completed? ==> |Visible(r.events)| >= 2 && LastAnswer(Visible(r.events)).Answer?
  {
    ReachableInv(cfg, r);
    AnswerPlaces(FaceOf(r), i);
  }

  lemma AnswerPlaces(f: Face, i: nat)
    requires FaceHolds(f) && i < |f.log|
    ensures f.log[i].Answer? ==> f.status.Completed? && |f.log| - 3 <= i <= |f.log| - 2
    ensures f.status.Completed? ==> |f.log| >= 2 && LastAnswer(f.log).Answer?
  {
    LogEnds(f);
    if i < |f.log| - 1 { LogBeforeEnd(f, i); }
  }

  predicate TwoAnswers(v: seq<Event>) {
    |v| >= 3 && v[|v| - 3].Answer?
  }

  /** The stored message agrees with what was streamed, until a vote replaces its text. */
  lemma MessageAgreesWithLog(cfg: Config, r: Rows)
    requires Reachable(cfg, r) && r.status.Completed? && r.pair != Some(PairVoted)
    ensures var v := Visible(r.events);
      && r.message.MessageCompleted? && |v| >= 2 && LastAnswer(v).Answer?
      && r.body == (if TwoAnswers(v) then [] else LastAnswer(v).content)
  {
    ReachableInv(cfg, r);
    BodyShown(FaceOf(r));
  }

  lemma BodyShown(f: Face)
    requires FaceHolds(f) && f.status.Completed? && f.pair != Some(PairVoted)
    ensures |f.log| >= 2 && LastAnswer(f.log).Answer?
    ensures f.body == if TwoAnswers(f.log) then [] else LastAnswer(f.log).content
  {
    var v := f.log;
    if CompletedShape(v, 1) && |v| >= 3 {
      assert v[|v| - 3] == v[..|v| - 2][|v| - 3];
    }
  }

  /** After a vote the message is one of the candidates that were streamed, or empty. */
  lemma VotedMessageIsCandidate(cfg: Config, r: Rows)
    requires Reachable(cfg, r) && r.pair == Some(PairVoted)
    ensures r.status.Completed? && TwoAnswers(Visible(r.events)) && (r.body == [] || IsAnswer(Visible(r.events), r.body))
  {
    ReachableInv(cfg, r);
    VotedShape(FaceOf(r));
  }

  lemma VotedShape(f: Face)
    requires FaceHolds(f) && f.pair == Some(PairVoted)
    ensures f.status.Completed? && TwoAnswers(f.log) && (f.body == [] || IsAnswer(f.log, f.body))
  {}

  lemma StepIsFinal(cfg: Config, r: Rows, step: Step)
    requires !r.status.Active()
    ensures Apply(cfg, r, step).status == r.status
    ensures Visible(Apply(cfg, r, step).events) == Visible(r.events)
  {
    match step
    case User(u) => if u.ClickStep? { ClickIsInvisible(r); }
    case Worker(w) =>
    case Maintenance(m) =>
      RecoverIsFinal(cfg, r, |r.executions|, m.now);
      ExpireIsFinal(r, |r.executions|, m.now);
  }

  lemma {:induction false} RecoverIsFinal(cfg: Config, r: Rows, n: nat, now: int)
    requires !r.status.Active()
    ensures RecoverUpTo(cfg, r, n, now).status == r.status && RecoverUpTo(cfg, r, n, now).events == r.events
  {
    if n > 0 { RecoverIsFinal(cfg, r, n - 1, now); }
  }

  lemma {:induction false} ExpireIsFinal(r: Rows, n: nat, now: int)
    requires !r.status.Active()
    ensures ExpireReconcilingUpTo(r, n, now) == r
  {
    if n > 0 { ExpireIsFinal(r, n - 1, now); }
  }

  /** Terminal statuses never change, and nothing is ever replayed after the terminal event. */
  lemma {:induction false} TerminalIsFinal(cfg: Config, r: Rows, steps: seq<Step>)
    requires !r.status.Active()
    ensures Run(cfg, r, steps).status == r.status
    ensures Visible(Run(cfg, r, steps).events) == Visible(r.events)
  {
    if steps != [] {
      var front := steps[..|steps| - 1];
      TerminalIsFinal(cfg, r, front);
      StepIsFinal(cfg, Run(cfg, r, front), Last(steps));
    }
  }

  predicate Requeues(step: Step) {
    step.Maintenance? && step.maintenance.ReconcileStep?
  }

  lemma {:induction false} RecoverGrows(cfg: Config, r: Rows, n: nat, now: int)
    ensures var after := RecoverUpTo(cfg, r, n, now);
      after.controlVersion == r.controlVersion && after.claims == r.claims && after.requeues == r.requeues && r.events <= after.events
  {
    if n > 0 { RecoverGrows(cfg, r, n - 1, now); }
  }

  lemma {:induction false} ExpireGrows(r: Rows, n: nat, now: int)
    ensures var after := ExpireReconcilingUpTo(r, n, now);
      after.controlVersion == r.controlVersion && after.claims == r.claims && after.requeues == r.requeues && r.events <= after.events
  {
    if n > 0 { ExpireGrows(r, n - 1, now); }
  }

  lemma StepGrows(cfg: Config, r: Rows, step: Step)
    ensures r.controlVersion <= Apply(cfg, r, step).controlVersion
    ensures r.claims <= Apply(cfg, r, step).claims
    ensures r.events <= Apply(cfg, r, step).events
    ensures !Requeues(step) ==> Apply(cfg, r, step).requeues == r.requeues
  {
    match step
    case User(u) =>
    case Worker(w) => WorkerGrows(cfg, r, w);
    case Maintenance(m) =>
      RecoverGrows(cfg, r, |r.executions|, m.now);
      ExpireGrows(r, |r.executions|, m.now);
  }

  ghost predicate Grows(r: Rows, after: Rows) {
    after.controlVersion == r.controlVersion && r.claims <= after.claims && after.requeues == r.requeues && r.events <= after.events
  }

  lemma WorkerGrows(cfg: Config, r: Rows, w: WorkerStep)
    ensures Grows(r, ApplyWorker(cfg, r, w))
  {
    match w
    case StopClaimedStep(e, reason) =>
    case UpgradeStep(e, token, cv, skipped) =>
    case PublishStep(e, token, cv, drafts, current, skipped) =>
    case FailStep(e, code, now) =>
    case _ =>
  }

  /** The event log and the list of claims only ever grow at the end. */
  lemma {:induction false} RunGrows(cfg: Config, r: Rows, steps: seq<Step>)
    ensures r.controlVersion <= Run(cfg, r, steps).controlVersion
    ensures r.claims <= Run(cfg, r, steps).claims
    ensures r.events <= Run(cfg, r, steps).events
  {
    if steps != [] {
      var front := steps[..|steps| - 1];
      RunGrows(cfg, r, front);
      StepGrows(cfg, Run(cfg, r, front), Last(steps));
    }
  }

  /** Once a stop request has committed, no run completes or replays an answer. */
  lemma StopRequestWins(cfg: Config, r: Rows, steps: seq<Step>)
    requires Inv(cfg, r) && r.status.StopRequested?
    ensures var after := Run(cfg, r, steps);
      && (after.status.StopRequested? || after.status.Stopped? || after.status.Failed?)
      && (forall i :: 0 <= i < |after.events| ==> !after.events[i].Answer? && !after.events[i].Done?)
  {
    RunGrows(cfg, r, steps);
    RunKeepsInv(cfg, r, steps);
    var after := Run(cfg, r, steps);
    assert after.controlVersion == 2 && !after.status.Completed?;
    forall i | 0 <= i < |after.events| ensures !after.events[i].Answer? && !after.events[i].Done? {
      if after.events[i].Answer? || after.events[i].Done? {
        VisibleKeeps(after.events, i);
        NeverAnswered(FaceOf(after), after.events[i]);
      }
    }
  }

  /**
   A stop request, by the user or by revocation, fences off every worker that was at
   work: under a control version from before it nothing is logged, checkpointed or
   published any more, whatever happens later.
  */
  lemma StopFencesOff(cfg: Config, r: Rows, asked: Rows, steps: seq<Step>, e: nat, token: nat, cv: nat)
    requires r.status.Running? && cv <= r.controlVersion
    requires asked == Stop(r) || exists dropped :: asked == Revoke(r, dropped, true)
    ensures !FenceCurrent(Run(cfg, asked, steps), e, token, cv)
    ensures !CheckpointCommits(Run(cfg, asked, steps), e, token, cv)
    ensures forall drafts, current, skipped :: !PublishCommits(Run(cfg, asked, steps), e, token, cv, drafts, current, skipped)
  {
    RunGrows(cfg, asked, steps);
  }

  /**
   When the last subscriber of a running generation leaves, maintenance stops it from
   the end of the grace on and not before; a new subscriber in between saves it.
  */
  lemma LeavingStopsAfterGrace(r: Rows, token: nat, now: int, grace: nat, later: int, other: nat, back: int, ttl: nat)
    requires r.status.Running? && r.leases.Keys == {token} && other != token
    ensures Reap(CloseLease(r, token, now, grace), later).status.Stopped? <==> now + grace <= later
    ensures !Reap(OpenLease(CloseLease(r, token, now, grace), other, back, ttl), later).status.Stopped?
  {
    assert r.leases - {token} == map[];
  }

  lemma NeverAnswered(f: Face, e: Event)
    requires FaceHolds(f) && !f.status.Completed? && e in f.log
    ensures !e.Answer? && !e.Done?
  {
    var i :| 0 <= i < |f.log| && f.log[i] == e;
    if i < |f.log| - 1 { LogBeforeEnd(f, i); }
  }

  // ---------------------------------------------------------------- executions

  /** Attempts are numbered 1..n within the quota; the one live execution, if any, is the newest. */
  lemma OneLiveExecution(cfg: Config, r: Rows, i: nat)
    requires Reachable(cfg, r) && i < |r.executions|
    ensures |r.executions| <= if cfg.maxPhysical > 1 then cfg.maxPhysical else 1
    ensures r.executions[i].attempt == i + 1
    ensures r.executions[i].status.Live() ==> i == |r.executions| - 1
  {
    ReachableInv(cfg, r);
  }

  /** Successive claims carry strictly larger tokens, also across recoveries. */
  lemma ClaimTokensIncrease(cfg: Config, r: Rows, i: nat, j: nat)
    requires Reachable(cfg, r) && i < j < |r.claims|
    ensures r.claims[i].token < r.claims[j].token
  {
    ReachableInv(cfg, r);
  }

  /** A worker holds the fence exactly when its execution is leased under the latest claim. */
  lemma FenceIsLatestClaim(cfg: Config, r: Rows, e: nat, token: nat)
    requires Reachable(cfg, r)
    ensures HoldsToken(r, e, token) <==> IsLeased(r, e) && r.claims != [] && Last(r.claims) == Claimed(e, token)
  {
    ReachableInv(cfg, r);
  }

  /** No heartbeat, checkpoint or event under the token changes anything, and no publication completes the generation. */
  ghost predicate CommitsNothing(cfg: Config, r: Rows, e: nat, token: nat) {
    && (forall now :: Heartbeat(cfg, r, e, token, now) == r)
    && (forall cv, phase :: SaveCheckpoint(r, e, token, cv, phase) == r)
    && (forall cv, what, skipped :: Emit(r, e, token, cv, what, skipped) == r)
    && (forall cv, drafts, current, skipped :: Publish(r, e, token, cv, drafts, current, skipped).status.Completed? ==> r.status.Completed?)
  }

  lemma WithoutTokenNothing(cfg: Config, r: Rows, e: nat, token: nat)
    requires !HoldsToken(r, e, token)
    ensures CommitsNothing(cfg, r, e, token)
  {
    forall cv, drafts, current, skipped ensures Publish(r, e, token, cv, drafts, current, skipped).status.Completed? ==> r.status.Completed? {
      assert Publish(r, e, token, cv, drafts, current, skipped) == CancelStale(r, e);
    }
  }

  /** After a newer claim, no write under an older token commits, however the run goes on. */
  lemma SupersededWorkerCommitsNothing(cfg: Config, r: Rows, newer: nat, steps: seq<Step>, e: nat, token: nat)
    requires Reachable(cfg, r) && newer < |r.claims| && token < r.claims[newer].token
    ensures CommitsNothing(cfg, Run(cfg, r, steps), e, token)
  {
    RunGrows(cfg, r, steps);
    ReachableRun(cfg, r, steps);
    OlderTokenIsLost(cfg, Run(cfg, r, steps), r.claims, newer, e, token);
    WithoutTokenNothing(cfg, Run(cfg, r, steps), e, token);
  }

  lemma OlderTokenIsLost(cfg: Config, r: Rows, claims: seq<Claimed>, newer: nat, e: nat, token: nat)
    requires Reachable(cfg, r) && claims <= r.claims && newer < |claims| && token < claims[newer].token
    ensures !HoldsToken(r, e, token)
  {
    FenceIsLatestClaim(cfg, r, e, token);
    ReachableInv(cfg, r);
    assert r.claims[newer] == claims[newer];
  }

  // ---------------------------------------------------------------- progress

  predicate NoReconcile(steps: seq<Step>) {
    forall i :: 0 <= i < |steps| ==> !Requeues(steps[i])
  }

  lemma {:induction false} NoReconcileNoRequeue(cfg: Config, r: Rows, steps: seq<Step>)
    requires NoReconcile(steps)
    ensures Run(cfg, r, steps).requeues == r.requeues
  {
    if steps != [] {
      var front := steps[..|steps| - 1];
      NoReconcileNoRequeue(cfg, r, front);
      StepGrows(cfg, Run(cfg, r, front), Last(steps));
    }
  }

  /**
   The number of claims is bounded by the execution quota and the scope retries;
   each provider reconciliation adds one claim and forgets the retries counted so far.
  */
  lemma ClaimsAreBounded(cfg: Config, r: Rows)
    requires Reachable(cfg, r)
    ensures |r.claims| <= (if cfg.maxPhysical > 1 then cfg.maxPhysical else 1) + cfg.maxScopeRetries
                          + r.requeues * (1 + cfg.maxScopeRetries)
  {
    ReachableInv(cfg, r);
  }

  lemma ClaimsWithoutReconciliation(cfg: Config, now: int, deadline: int, withPair: bool, steps: seq<Step>)
    requires NoReconcile(steps) && cfg.maxPhysical >= 1
    ensures |Run(cfg, Create(now, deadline, withPair), steps).claims| <= cfg.maxPhysical + cfg.maxScopeRetries
  {
    var r := Create(now, deadline, withPair);
    NoReconcileNoRequeue(cfg, r, steps);
    CreateEstablishesInv(cfg, now, deadline, withPair);
    RunKeepsInv(cfg, r, steps);
  }

  // ---------------------------------------------------------------- unknown provider results

  lemma {:induction false} OnlyNewestExpires(r: Rows, n: nat, now: int)
    requires forall i :: 0 <= i < n && i < |r.executions| ==> !r.executions[i].status.Reconciling?
    ensures ExpireReconcilingUpTo(r, n, now) == r
  {
    if n > 0 { OnlyNewestExpires(r, n - 1, now); }
  }

  /**
   Maintenance promises to close an unknown provider result once the deadline
   has passed. It does so exactly when the user has not asked to stop meanwhile.
  */
  lemma DeadlineClosesUnknownResult(cfg: Config, r: Rows, now: int)
    requires Reachable(cfg, r) && r.executions != [] && Last(r.executions).status.Reconciling? && r.deadline <= now
    ensures !ApplyMaintenance(cfg, r, ExpireReconcilingStep(now)).status.Active() <==> !r.status.StopRequested?
  {
    ReachableInv(cfg, r);
    UnknownResultExpires(r, now);
  }

  lemma UnknownResultExpires(r: Rows, now: int)
    requires r.executions != [] && Last(r.executions).status.Reconciling? && r.deadline <= now
    requires forall i :: 0 <= i < |r.executions| - 1 ==> !r.executions[i].status.Live()
    ensures !ExpireReconciling(r, now).status.Active() <==> !r.status.StopRequested?
  {
    OnlyNewestExpires(r, |r.executions| - 1, now);
  }

  /** The steps that can settle a stopped unknown result: a worker's publication, effort upgrade, failure or stop, and the provider's answer. */
  predicate Settling(step: Step) {
    || (step.Worker? && (step.worker.PublishStep? || step.worker.UpgradeStep? || step.worker.FailStep? || step.worker.StopClaimedStep?))
    || (step.Maintenance? && step.maintenance.ReconcileStep?)
  }

  predicate StuckStop(r: Rows) {
    r.status.StopRequested? && r.executions != [] && Last(r.executions).status.Reconciling?
    && forall i :: 0 <= i < |r.executions| - 1 ==> !r.executions[i].status.Live()
  }

  lemma {:induction false} RecoverFindsNothing(cfg: Config, r: Rows, n: nat, now: int)
    requires StuckStop(r)
    ensures RecoverUpTo(cfg, r, n, now) == r
  {
    if n > 0 { RecoverFindsNothing(cfg, r, n - 1, now); }
  }

  lemma {:induction false} ExpireSkipsStopped(r: Rows, n: nat, now: int)
    requires !r.status.Running?
    ensures ExpireReconcilingUpTo(r, n, now) == r
  {
    if n > 0 { ExpireSkipsStopped(r, n - 1, now); }
  }

  /** A step ends the wait exactly when it settles the result: any worker's path that closes by execution id, or an answer about this very execution. */
  lemma StuckStopEndsExactly(cfg: Config, r: Rows, step: Step)
    requires StuckStop(r)
    ensures StuckStop(Apply(cfg, r, step)) <==>
      !Settling(step) || (step.Maintenance? && step.maintenance.e != |r.executions| - 1)
  {
    match step
    case User(u) =>
    case Worker(w) => WorkerEndsWait(cfg, r, w);
    case Maintenance(m) =>
      RecoverFindsNothing(cfg, r, |r.executions|, m.now);
      ExpireSkipsStopped(r, |r.executions|, m.now);
  }

  lemma WorkerEndsWait(cfg: Config, r: Rows, w: WorkerStep)
    requires StuckStop(r)
    ensures StuckStop(ApplyWorker(cfg, r, w)) <==> !Settling(Worker(w))
  {}

  /** A stop request over an unknown result waits on through any run of other steps: no deadline ends it. */
  lemma {:induction false} StoppedUnknownResultNeverCloses(cfg: Config, r: Rows, steps: seq<Step>)
    requires StuckStop(r)
    requires forall i :: 0 <= i < |steps| ==> !Settling(steps[i])
    ensures StuckStop(Run(cfg, r, steps))
  {
    if steps != [] {
      var front := steps[..|steps| - 1];
      StoppedUnknownResultNeverCloses(cfg, r, front);
      assert !Settling(Last(steps));
      StuckStopEndsExactly(cfg, Run(cfg, r, front), Last(steps));
    }
  }
}

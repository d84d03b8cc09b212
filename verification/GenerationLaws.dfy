/**
 What every interleaving of the transactions in `Generation` keeps: the shape
 of the event log, the single live execution, increasing fencing tokens, and
 the bound on claims.
*/
module GenerationLaws {
  import opened Options
  import opened Generation
  import opened Rouge

  // ---------------------------------------------------------------- the stream log

  /** The log without citation clicks, as `list_events_after` replays it. */
  function Visible(events: seq<Event>): seq<Event> {
    if events == [] then []
    else
      var n := |events| - 1;
      Visible(events[..n]) + if events[n].CitationClick? then [] else [events[n]]
  }

  lemma {:induction false} VisibleConcat(a: seq<Event>, b: seq<Event>)
    ensures Visible(a + b) == Visible(a) + Visible(b)
  {
    if b == [] {
      assert a + b == a;
    } else {
      var n := |b| - 1;
      assert (a + b)[..|a| + n] == a + b[..n];
      VisibleConcat(a, b[..n]);
    }
  }

  lemma {:induction false} VisibleNoClicks(events: seq<Event>)
    requires forall i :: 0 <= i < |events| ==> !events[i].CitationClick?
    ensures Visible(events) == events
  {
    if events != [] {
      VisibleNoClicks(events[..|events| - 1]);
    }
  }

  lemma {:induction false} VisibleKeeps(events: seq<Event>, i: nat)
    requires i < |events| && !events[i].CitationClick?
    ensures events[i] in Visible(events)
  {
    var n := |events| - 1;
    if i < n {
      VisibleKeeps(events[..n], i);
    }
  }

  predicate Opening(e: Event) {
    e.Start? || e.AbStart? || e.Interim? || e.StopNote?
  }

  predicate AllOpening(events: seq<Event>) {
    forall i :: 0 <= i < |events| ==> Opening(events[i])
  }

  /** One answer, or the two of an A/B pair, then `done`, after interim events only. */
  predicate CompletedShape(v: seq<Event>, answers: nat) {
    && 1 <= answers <= 2 && |v| > answers && v[|v| - 1] == Done
    && AllOpening(v[..|v| - 1 - answers])
    && (forall i :: |v| - 1 - answers <= i < |v| - 1 ==> v[i].Answer?)
  }

  function LastAnswer(v: seq<Event>): Event
    requires |v| >= 2
  {
    v[|v| - 2]
  }

  /** What a client and an operator can see of a generation: its row, message, pair and replayed log. */
  datatype Face = Face(
    status: Status, stopReason: Option<StopReason>, errorCode: Option<ErrorCode>, controlVersion: nat,
    message: MessageStatus, body: seq<Token>, pair: Option<PairStatus>, log: seq<Event>)

  function FaceOf(r: Rows): Face {
    Face(r.status, r.stopReason, r.errorCode, r.controlVersion, r.message, r.body, r.pair, Visible(r.events))
  }

  /** The replayed log says exactly what the row says. */
  predicate LogMatches(f: Face) {
    var v := f.log;
    match f.status
    case Running => AllOpening(v)
    case StopRequested => AllOpening(v)
    case Stopped =>
      f.stopReason.Some? && |v| > 0 && v[|v| - 1] == StoppedBy(f.stopReason.value) && AllOpening(v[..|v| - 1])
    case Failed =>
      f.errorCode.Some? && |v| > 0 && v[|v| - 1] == Error(f.errorCode.value) && AllOpening(v[..|v| - 1])
    case Completed =>
      || (CompletedShape(v, 2) && (f.pair == Some(PairVoted) || f.body == []))
      || (CompletedShape(v, 1) && f.pair != Some(PairVoted) && LastAnswer(v).content == f.body)
  }

  predicate MessageMatches(f: Face) {
    match f.status
    case Running => f.message.Generating?
    case StopRequested => f.message.Generating?
    case Completed => f.message.MessageCompleted?
    case Failed => f.message.MessageFailed?
    case Stopped => f.message.MessageStopped?
  }

  /** A pending pair belongs to an unfinished generation, an open or voted one to a completed one. */
  predicate PairMatches(f: Face) {
    && (f.pair == Some(PairPending) ==> f.status.Active())
    && (f.pair == Some(PairOpen) || f.pair == Some(PairVoted) ==> f.status.Completed? && CompletedShape(f.log, 2))
    && (f.pair == Some(PairVoted) ==> f.body == [] || IsAnswer(f.log, f.body))
  }

  /** The text is one of the answers in the log. */
  predicate IsAnswer(log: seq<Event>, body: seq<Token>) {
    exists i :: 0 <= i < |log| && log[i].Answer? && log[i].content == body
  }

  /** Only a stop raises the control version, and nothing completes after one. */
  predicate ControlMatches(f: Face) {
    && (f.status.Running? || f.status.Completed? ==> f.controlVersion == 1)
    && (f.status.StopRequested? ==> f.controlVersion == 2)
    && 1 <= f.controlVersion <= 2
  }

  predicate FaceHolds(f: Face) {
    LogMatches(f) && MessageMatches(f) && PairMatches(f) && ControlMatches(f)
  }

  // ---------------------------------------------------------------- executions and tokens

  function Last<T>(s: seq<T>): T
    requires s != []
  {
    s[|s| - 1]
  }

  /** Attempts are 1..n within the quota, and only the newest can still be live. */
  predicate AttemptsMatch(cfg: Config, xs: seq<Execution>) {
    && 1 <= |xs| && (|xs| == 1 || |xs| <= cfg.maxPhysical)
    && (forall i :: 0 <= i < |xs| ==> xs[i].attempt == i + 1)
    && (forall i :: 0 <= i < |xs| - 1 ==> !xs[i].status.Live())
  }

  predicate TokensIncrease(claims: seq<Claimed>) {
    forall i, j :: 0 <= i < j < |claims| ==> claims[i].token < claims[j].token && claims[i].execution <= claims[j].execution
  }

  predicate TokensMatch(xs: seq<Execution>, claims: seq<Claimed>)
    requires xs != []
  {
    && TokensIncrease(claims)
    && (claims != [] ==> Last(claims).token <= Last(xs).fencing && Last(claims).execution < |xs|)
    && (Last(xs).status.Leased? ==> claims != [] && Last(claims) == Claimed(|xs| - 1, Last(xs).fencing))
  }

  // ---------------------------------------------------------------- the claim budget

  /** Scope retries used so far; once nothing is live, all of them count as used. */
  function Spent(cfg: Config, xs: seq<Execution>): nat
    requires xs != []
  {
    if Last(xs).status.Live() then ScopeRetries(Last(xs).checkpoint) else cfg.maxScopeRetries
  }

  predicate ClaimsBounded(cfg: Config, xs: seq<Execution>, claims: seq<Claimed>, requeues: nat)
    requires xs != []
  {
    && Spent(cfg, xs) <= cfg.maxScopeRetries
    && |claims| + (if Last(xs).status.Waiting() then 1 else 0) <= |xs| + Spent(cfg, xs) + requeues * (1 + cfg.maxScopeRetries)
  }

  predicate WorkHolds(cfg: Config, xs: seq<Execution>, claims: seq<Claimed>, requeues: nat) {
    AttemptsMatch(cfg, xs) && TokensMatch(xs, claims) && ClaimsBounded(cfg, xs, claims, requeues)
  }

  predicate FaceInv(r: Rows) {
    FaceHolds(FaceOf(r))
  }

  predicate WorkInv(cfg: Config, r: Rows) {
    WorkHolds(cfg, r.executions, r.claims, r.requeues)
  }

  predicate Inv(cfg: Config, r: Rows) {
    FaceInv(r) && WorkInv(cfg, r)
  }

  // ---------------------------------------------------------------- log lemmas

  lemma {:induction false} OpeningHasNoTerminal(events: seq<Event>)
    requires AllOpening(Visible(events))
    ensures !HasTerminal(events)
  {
    if events != [] {
      var n := |events| - 1;
      var v := Visible(events);
      if !events[n].CitationClick? {
        assert v[..|v| - 1] == Visible(events[..n]) && v[|v| - 1] == events[n];
      } else {
        assert v == Visible(events[..n]);
      }
      forall i | 0 <= i < |Visible(events[..n])| ensures Opening(Visible(events[..n])[i]) {
        assert v[i] == Visible(events[..n])[i];
      }
      OpeningHasNoTerminal(events[..n]);
    }
  }

  lemma {:induction false} AnswersAreNotTerminal(events: seq<Event>, answers: seq<Event>)
    requires !HasTerminal(events)
    requires forall i :: 0 <= i < |answers| ==> answers[i].Answer?
    ensures !HasTerminal(events + answers)
  {
    if answers == [] {
      assert events + answers == events;
    } else {
      var n := |answers| - 1;
      assert (events + answers)[..|events| + n] == events + answers[..n];
      AnswersAreNotTerminal(events, answers[..n]);
    }
  }

  lemma Appended(events: seq<Event>, more: seq<Event>)
    requires forall i :: 0 <= i < |more| ==> !more[i].CitationClick?
    ensures Visible(events + more) == Visible(events) + more
  {
    VisibleConcat(events, more);
    VisibleNoClicks(more);
  }

  lemma FailKeepsFace(r: Rows, code: ErrorCode)
    requires FaceInv(r) && r.status.Active()
    ensures FaceInv(FailRows(r, code))
  {
    OpeningHasNoTerminal(r.events);
    Appended(r.events, [Error(code)]);
  }

  lemma StopKeepsFace(r: Rows, reason: StopReason)
    requires FaceInv(r) && r.status.Active()
    ensures FaceInv(StopRows(r, reason))
  {
    OpeningHasNoTerminal(r.events);
    Appended(r.events, [StoppedBy(reason)]);
    StoppedFace(FaceOf(r), reason);
  }

  lemma StoppedFace(f: Face, reason: StopReason)
    requires FaceHolds(f) && f.status.Active()
    ensures FaceHolds(f.(status := Stopped, stopReason := Some(reason), message := MessageStopped,
                         pair := DiscardPair(f.pair), log := f.log + [StoppedBy(reason)]))
  {}

  lemma ClickIsInvisible(r: Rows)
    ensures FaceOf(Click(r)) == FaceOf(r)
  {
    VisibleConcat(r.events, [CitationClick]);
    assert Visible([CitationClick]) == [];
  }

  /** The log after a publication: the old log, the shown answers, `done`. */
  lemma PublishedLog(events: seq<Event>, shown: seq<Draft>)
    requires AllOpening(Visible(events))
    ensures Visible(AppendTerminal(events + Answers(shown), Done)) == Visible(events) + Answers(shown) + [Done]
  {
    OpeningHasNoTerminal(events);
    Appended(events, Answers(shown));
    AnswersAreNotTerminal(events, Answers(shown));
    Appended(events + Answers(shown), [Done]);
  }

  lemma PublishedShape(v: seq<Event>, shown: seq<Draft>)
    requires AllOpening(v) && 1 <= |shown| <= 2
    ensures CompletedShape(v + Answers(shown) + [Done], |shown|)
    ensures LastAnswer(v + Answers(shown) + [Done]) == Answer(shown[|shown| - 1].candidate, shown[|shown| - 1].content)
  {
    var after := v + Answers(shown) + [Done];
    assert after[..|after| - 1 - |shown|] == v;
  }

  lemma StopExecutionFace(r: Rows, e: nat, reason: StopReason)
    requires FaceInv(r) && r.status.Active()
    ensures FaceInv(StopExecution(r, e, reason))
  {
    StopKeepsFace(r, reason);
  }

  lemma CancelStaleFace(r: Rows, e: nat)
    requires FaceInv(r)
    ensures FaceInv(CancelStale(r, e))
  {
    if r.status.StopRequested? {
      StopExecutionFace(r, e, if r.stopReason.Some? then r.stopReason.value else ManualRequest);
    }
  }

  lemma PublishedFace(r: Rows, e: nat, drafts: seq<Draft>, opens: bool)
    requires FaceInv(r) && r.status.Running? && drafts != [] && e < |r.executions|
    requires opens ==> r.pair.Some? && |drafts| == 2
    ensures FaceInv(Published(r, e, drafts, opens))
  {
    var shown := if opens then drafts else drafts[..1];
    PublishedLog(r.events, shown);
    PublishedShape(Visible(r.events), shown);
  }

  lemma PublishFace(r: Rows, e: nat, token: nat, cv: nat, drafts: seq<Draft>, current: bool, skipped: bool)
    requires FaceInv(r)
    ensures FaceInv(Publish(r, e, token, cv, drafts, current, skipped))
  {
    if PublishCommits(r, e, token, cv, drafts, current, skipped) {
      PublishedFace(r, e, drafts, OpensPair(r, drafts));
    } else {
      CancelStaleFace(r, e);
    }
  }

  lemma FailFace(cfg: Config, r: Rows, e: nat, code: ErrorCode, now: int)
    requires FaceInv(r)
    ensures FaceInv(Fail(cfg, r, e, code, now))
  {
    if code.StateConflict? {
      CancelStaleFace(r, e);
    } else if r.status.StopRequested? {
      StopExecutionFace(r, e, if r.stopReason.Some? then r.stopReason.value else AuthorizationRevoked);
    } else if r.status.Running? {
      FailKeepsFace(r, code);
    }
  }

  lemma ReapFace(r: Rows, now: int)
    requires FaceInv(r)
    ensures FaceInv(Reap(r, now))
  {
    if GraceOver(r, now) && !HasActiveLease(r, now) {
      var asked := RequestStop(r, ClientDisconnected);
      StopKeepsFace(asked.(events := asked.events + [StopNote(ClientDisconnected)]), ClientDisconnected);
    }
  }

  lemma RecoverOneFace(cfg: Config, r: Rows, e: nat, now: int)
    requires FaceInv(r)
    ensures FaceInv(RecoverOne(cfg, r, e, now))
  {
    if e < |r.executions| && r.status.Active() {
      var x := r.executions[e];
      var expired := WithExecution(r, e, Release(x, Expired).(fencing := x.fencing + 1));
      FailKeepsFace(expired, if r.deadline <= now then DeadlineExceeded else RecoveryExhausted);
    }
  }

  lemma {:induction false} RecoverFace(cfg: Config, r: Rows, n: nat, now: int)
    requires FaceInv(r)
    ensures FaceInv(RecoverUpTo(cfg, r, n, now))
  {
    if n > 0 {
      RecoverFace(cfg, r, n - 1, now);
      RecoverOneFace(cfg, RecoverUpTo(cfg, r, n - 1, now), n - 1, now);
    }
  }

  lemma {:induction false} ExpireFace(r: Rows, n: nat, now: int)
    requires FaceInv(r)
    ensures FaceInv(ExpireReconcilingUpTo(r, n, now))
  {
    if n > 0 {
      ExpireFace(r, n - 1, now);
      var before := ExpireReconcilingUpTo(r, n - 1, now);
      if before.status.Running? {
        FailKeepsFace(before, ProviderResultUnknown);
      }
    }
  }

  lemma UserKeepsFace(cfg: Config, r: Rows, step: UserStep)
    requires FaceInv(r)
    ensures FaceInv(ApplyUser(cfg, r, step))
  {
    if step.ClickStep? { ClickIsInvisible(r); }
    if step.VoteStep? { VoteFace(r, step.choice, step.late); }
  }

  lemma VoteFace(r: Rows, choice: Option<nat>, late: bool)
    requires FaceInv(r)
    ensures FaceInv(Vote(r, choice, late))
  {
    if choice.Some? && CandidateText(r.events, choice.value).Some? {
      var text := CandidateText(r.events, choice.value).value;
      var i :| 0 <= i < |r.events| && r.events[i] == Answer(choice.value, text);
      VisibleKeeps(r.events, i);
      var j :| 0 <= j < |Visible(r.events)| && Visible(r.events)[j] == r.events[i];
      assert IsAnswer(Visible(r.events), text);
    }
  }

  lemma WorkerKeepsFace(cfg: Config, r: Rows, step: WorkerStep)
    requires FaceInv(r)
    ensures FaceInv(ApplyWorker(cfg, r, step))
  {
    match step
    case EmitStep(e, token, cv, what, skipped) =>
    case StopClaimedStep(e, reason) =>
      if r.status.Active() { StopExecutionFace(r, e, reason); }
    case UpgradeStep(e, token, cv, skipped) => CancelStaleFace(r, e);
    case PublishStep(e, token, cv, drafts, current, skipped) => PublishFace(r, e, token, cv, drafts, current, skipped);
    case FailStep(e, code, now) => FailFace(cfg, r, e, code, now);
    case _ =>
  }

  lemma MaintenanceKeepsFace(cfg: Config, r: Rows, step: MaintenanceStep)
    requires FaceInv(r)
    ensures FaceInv(ApplyMaintenance(cfg, r, step))
  {
    match step
    case ReapStep(now) => ReapFace(r, now);
    case RecoverStep(now) => RecoverFace(cfg, r, |r.executions|, now);
    case ExpireReconcilingStep(now) => ExpireFace(r, |r.executions|, now);
    case ReconcileStep(e, recovered, now) =>
  }

  // ---------------------------------------------------------------- execution lemmas

  /** A claim takes the newest execution: it is the only one that can be waiting. */
  lemma ClaimKeepsWork(cfg: Config, r: Rows, e: nat, now: int)
    requires WorkInv(cfg, r)
    ensures WorkInv(cfg, Claim(cfg, r, e, now))
  {
    if e < |r.executions| && r.executions[e].status.Waiting() {
      assert e == |r.executions| - 1;
    }
  }

  lemma RetryKeepsWork(cfg: Config, r: Rows, e: nat, x: Execution)
    requires WorkInv(cfg, r) && IsLeased(r, e) && x.status.RetryWait?
    requires x.attempt == r.executions[e].attempt && x.fencing == r.executions[e].fencing
    requires ScopeRetries(x.checkpoint) == ScopeRetries(r.executions[e].checkpoint) + 1 <= cfg.maxScopeRetries
    ensures WorkInv(cfg, WithExecution(r, e, x))
  {}

  lemma ReconcileKeepsWork(cfg: Config, r: Rows, e: nat, recovered: Option<string>, now: int)
    requires WorkInv(cfg, r)
    ensures WorkInv(cfg, Reconcile(r, e, recovered, now))
  {
    assert (r.requeues + 1) * (1 + cfg.maxScopeRetries) == r.requeues * (1 + cfg.maxScopeRetries) + 1 + cfg.maxScopeRetries;
  }

  lemma CancelUnfinishedKeepsWork(cfg: Config, r: Rows)
    requires WorkInv(cfg, r)
    ensures WorkInv(cfg, r.(executions := CancelUnfinished(r.executions)))
  {}

  lemma RecoverOneWork(cfg: Config, r: Rows, e: nat, now: int)
    requires WorkInv(cfg, r)
    ensures WorkInv(cfg, RecoverOne(cfg, r, e, now))
  {
  }

  lemma {:induction false} RecoverWork(cfg: Config, r: Rows, n: nat, now: int)
    requires WorkInv(cfg, r)
    ensures WorkInv(cfg, RecoverUpTo(cfg, r, n, now))
  {
    if n > 0 {
      RecoverWork(cfg, r, n - 1, now);
      RecoverOneWork(cfg, RecoverUpTo(cfg, r, n - 1, now), n - 1, now);
    }
  }

  lemma {:induction false} ExpireWork(cfg: Config, r: Rows, n: nat, now: int)
    requires WorkInv(cfg, r)
    ensures WorkInv(cfg, ExpireReconcilingUpTo(r, n, now))
  {
    if n > 0 {
      ExpireWork(cfg, r, n - 1, now);
    }
  }

  lemma StopExecutionWork(cfg: Config, r: Rows, e: nat, reason: StopReason)
    requires WorkInv(cfg, r)
    ensures WorkInv(cfg, StopExecution(r, e, reason))
  {
  }

  lemma CancelStaleWork(cfg: Config, r: Rows, e: nat)
    requires WorkInv(cfg, r)
    ensures WorkInv(cfg, CancelStale(r, e))
  {
    StopExecutionWork(cfg, r, e, if r.stopReason.Some? then r.stopReason.value else ManualRequest);
  }

  lemma PublishWork(cfg: Config, r: Rows, e: nat, token: nat, cv: nat, drafts: seq<Draft>, current: bool, skipped: bool)
    requires WorkInv(cfg, r)
    ensures WorkInv(cfg, Publish(r, e, token, cv, drafts, current, skipped))
  {
    CancelStaleWork(cfg, r, e);
  }

  lemma FailWork(cfg: Config, r: Rows, e: nat, code: ErrorCode, now: int)
    requires WorkInv(cfg, r)
    ensures WorkInv(cfg, Fail(cfg, r, e, code, now))
  {
    if code.StateConflict? {
      CancelStaleWork(cfg, r, e);
    } else if r.status.StopRequested? {
      StopExecutionWork(cfg, r, e, if r.stopReason.Some? then r.stopReason.value else AuthorizationRevoked);
    } else if e < |r.executions| {
      var x := r.executions[e];
      if !code.ProviderResultUnknown? && code.SourceScopeChanged? && ScopeRetries(x.checkpoint) < cfg.maxScopeRetries {
        if x.status.Leased? {
          var phase := if x.checkpoint.Some? then x.checkpoint.value.phase else "";
          RetryKeepsWork(cfg, r, e, Release(x, RetryWait).(
            nextAttempt := now, checkpoint := Some(Checkpoint(phase, Some(ScopeRetries(x.checkpoint) + 1)))));
        }
      }
    }
  }

  lemma UserKeepsWork(cfg: Config, r: Rows, step: UserStep)
    requires WorkInv(cfg, r)
    ensures WorkInv(cfg, ApplyUser(cfg, r, step))
  {
    var after := ApplyUser(cfg, r, step);
    assert after.executions == r.executions && after.claims == r.claims && after.requeues == r.requeues;
  }

  lemma WorkerKeepsWork(cfg: Config, r: Rows, step: WorkerStep)
    requires WorkInv(cfg, r)
    ensures WorkInv(cfg, ApplyWorker(cfg, r, step))
  {
    match step
    case ClaimStep(e, now) => ClaimKeepsWork(cfg, r, e, now);
    case HeartbeatStep(e, token, now) =>
    case CheckpointStep(e, token, cv, phase) => CheckpointKeepsWork(cfg, r, e, token, cv, phase);
    case EmitStep(e, token, cv, what, skipped) =>
    case StopClaimedStep(e, reason) => StopExecutionWork(cfg, r, e, reason);
    case UpgradeStep(e, token, cv, skipped) => CancelStaleWork(cfg, r, e);
    case PublishStep(e, token, cv, drafts, current, skipped) => PublishWork(cfg, r, e, token, cv, drafts, current, skipped);
    case FailStep(e, code, now) => FailWork(cfg, r, e, code, now);
  }

  lemma CheckpointKeepsWork(cfg: Config, r: Rows, e: nat, token: nat, cv: nat, phase: string)
    requires WorkInv(cfg, r)
    ensures WorkInv(cfg, SaveCheckpoint(r, e, token, cv, phase))
  {
  }

  lemma MaintenanceKeepsWork(cfg: Config, r: Rows, step: MaintenanceStep)
    requires WorkInv(cfg, r)
    ensures WorkInv(cfg, ApplyMaintenance(cfg, r, step))
  {
    match step
    case ReapStep(now) => CancelUnfinishedKeepsWork(cfg, r);
    case RecoverStep(now) => RecoverWork(cfg, r, |r.executions|, now);
    case ExpireReconcilingStep(now) => ExpireWork(cfg, r, |r.executions|, now);
    case ReconcileStep(e, recovered, now) => ReconcileKeepsWork(cfg, r, e, recovered, now);
  }

  lemma StepKeepsInv(cfg: Config, r: Rows, step: Step)
    requires Inv(cfg, r)
    ensures Inv(cfg, Apply(cfg, r, step))
  {
    match step
    case User(u) => UserKeepsFace(cfg, r, u); UserKeepsWork(cfg, r, u);
    case Worker(w) => WorkerKeepsFace(cfg, r, w); WorkerKeepsWork(cfg, r, w);
    case Maintenance(m) => MaintenanceKeepsFace(cfg, r, m); MaintenanceKeepsWork(cfg, r, m);
  }

  lemma {:induction false} RunKeepsInv(cfg: Config, r: Rows, steps: seq<Step>)
    requires Inv(cfg, r)
    ensures Inv(cfg, Run(cfg, r, steps))
  {
    if steps != [] {
      RunKeepsInv(cfg, r, steps[..|steps| - 1]);
      StepKeepsInv(cfg, Run(cfg, r, steps[..|steps| - 1]), steps[|steps| - 1]);
    }
  }
}

/**
 The workers of one generation, each confined to what `run_once` lets it do
 (app/chat/worker.py:826-983): it claims an execution, reads the generation and
 then its fence, works under them, and ends with its own publication, effort
 upgrade, stop or failure. Any number of workers, of recovered, retried and
 reconciled executions, interleave with users and maintenance; a worker that
 dies takes no more steps.
*/
module GenerationWorkers {
  import opened Options
  import opened Generation
  import opened GenerationLaws
  import opened GenerationTheorems

  /** `lost` says that the worker has seen a fence, or a fenced checkpoint, refused. */
  datatype Phase =
    | Fresh
    | Started(controlVersion: nat)
    | Working(controlVersion: nat, token: nat, lost: bool)
    | Stopping(reason: StopReason)
    | Over

  /** Worker number i is the one that made claim number i. */
  datatype World = World(rows: Rows, workers: seq<Phase>)

  datatype Action =
    | ReadGeneration
    | ReadFence
    | Save(phase: string)
    | Log(what: string, skipped: bool)         // stages and steps raise when refused
    | LogQuietly(what: string, skipped: bool)  // deltas and notices do not
    | Upgrade(skipped: bool)
    | Publication(drafts: seq<Draft>, scopeCurrent: bool, skipped: bool)
    | Close
    | Failure(code: ErrorCode, now: int)

  /** `Outside` moves are those of users, maintenance and heartbeat threads. */
  datatype Move = Outside(step: Step) | ClaimRow(e: nat, now: int) | Act(i: nat, action: Action)

  /** What a worker can do next. It reports a conflict only after a refusal. */
  predicate May(p: Phase, a: Action) {
    match a
    case ReadGeneration => p.Fresh?
    case ReadFence => p.Started?
    case Close => p.Stopping?
    case Failure(code, now) => p.Working? && (code.StateConflict? ==> p.lost)
    case _ => p.Working?
  }

  predicate Legal(w: World, move: Move) {
    match move
    case Outside(step) => !step.Worker? || step.worker.HeartbeatStep?
    case ClaimRow(e, now) => true
    case Act(i, a) => i < |w.workers| && May(w.workers[i], a)
  }

  /** The transaction of an action, for the worker of execution `e`; reads have none. */
  function Transaction(e: nat, p: Phase, a: Action): Option<WorkerStep>
    requires May(p, a)
  {
    match a
    case ReadGeneration => None
    case ReadFence => None
    case Save(phase) => Some(CheckpointStep(e, p.token, p.controlVersion, phase))
    case Log(what, skipped) => Some(EmitStep(e, p.token, p.controlVersion, what, skipped))
    case LogQuietly(what, skipped) => Some(EmitStep(e, p.token, p.controlVersion, what, skipped))
    case Upgrade(skipped) => Some(UpgradeStep(e, p.token, p.controlVersion, skipped))
    case Publication(drafts, current, skipped) => Some(PublishStep(e, p.token, p.controlVersion, drafts, current, skipped))
    case Close => Some(StopClaimedStep(e, p.reason))
    case Failure(code, now) => Some(FailStep(e, code, now))
  }

  /** Where the action leaves the worker; a publication of a changed scope raises, and its failure is still to come. */
  function Afterwards(r: Rows, e: nat, p: Phase, a: Action): Phase
    requires May(p, a)
  {
    match a
    case ReadGeneration =>
      if r.status.StopRequested? then Stopping(if r.stopReason.Some? then r.stopReason.value else ManualRequest)
      else Started(r.controlVersion)
    case ReadFence => Working(p.controlVersion, if e < |r.executions| then r.executions[e].fencing else 0, false)
    case Save(phase) => p.(lost := p.lost || !CheckpointCommits(r, e, p.token, p.controlVersion))
    case Log(what, skipped) => p.(lost := p.lost || !FenceSeen(r, e, p.token, p.controlVersion, skipped))
    case LogQuietly(what, skipped) => p
    case Upgrade(skipped) => if FenceSeen(r, e, p.token, p.controlVersion, skipped) && r.status.Running? then p else Over
    case Publication(drafts, current, skipped) =>
      if FenceSeen(r, e, p.token, p.controlVersion, skipped) && r.status.Running? && (!current || drafts == []) then p else Over
    case Close => Over
    case Failure(code, now) => Over
  }

  ghost function Acted(cfg: Config, r: Rows, e: nat, p: Phase, a: Action): Rows
    requires May(p, a)
  {
    var step := Transaction(e, p, a);
    if step.Some? then ApplyWorker(cfg, r, step.value) else r
  }

  ghost function Next(cfg: Config, w: World, move: Move): World
    requires Legal(w, move)
  {
    match move
    case Outside(step) => w.(rows := Apply(cfg, w.rows, step))
    case ClaimRow(e, now) =>
      var after := Claim(cfg, w.rows, e, now);
      World(after, if |after.claims| > |w.rows.claims| then w.workers + [Fresh] else w.workers)
    case Act(i, a) =>
      var e := ExecutionOf(w, i);
      World(Acted(cfg, w.rows, e, w.workers[i], a), w.workers[i := Afterwards(w.rows, e, w.workers[i], a)])
  }

  function ExecutionOf(w: World, i: nat): nat {
    if i < |w.rows.claims| then w.rows.claims[i].execution else 0
  }

  function Start(now: int, deadline: int, withPair: bool): World {
    World(Create(now, deadline, withPair), [])
  }

  ghost predicate LegalRun(cfg: Config, w: World, moves: seq<Move>) {
    moves == [] || (LegalRun(cfg, w, moves[..|moves| - 1]) && Legal(After(cfg, w, moves[..|moves| - 1]), Last(moves)))
  }

  /** The world after the moves; one that is not legal is not made. */
  ghost function After(cfg: Config, w: World, moves: seq<Move>): World {
    if moves == [] then w
    else
      var before := After(cfg, w, moves[..|moves| - 1]);
      if Legal(before, Last(moves)) then Next(cfg, before, Last(moves)) else before
  }

  lemma Snoc(cfg: Config, w: World, moves: seq<Move>, move: Move)
    requires LegalRun(cfg, w, moves) && Legal(After(cfg, w, moves), move)
    ensures LegalRun(cfg, w, moves + [move])
    ensures After(cfg, w, moves + [move]) == Next(cfg, After(cfg, w, moves), move)
  {
    assert (moves + [move])[..|moves|] == moves;
  }

  // ---------------------------------------------------------------- confined runs are runs

  lemma NextIsStep(cfg: Config, w: World, move: Move) returns (step: Option<Step>)
    requires Legal(w, move)
    ensures Next(cfg, w, move).rows == if step.Some? then Apply(cfg, w.rows, step.value) else w.rows
  {
    match move
    case Outside(s) => step := Some(s);
    case ClaimRow(e, now) => step := Some(Worker(ClaimStep(e, now)));
    case Act(i, a) =>
      var t := Transaction(ExecutionOf(w, i), w.workers[i], a);
      step := if t.Some? then Some(Worker(t.value)) else None;
  }

  /** Everything that holds of all reachable rows holds of the rows of confined workers. */
  lemma {:induction false} RowsAreReachable(cfg: Config, w: World, moves: seq<Move>)
    requires Reachable(cfg, w.rows) && LegalRun(cfg, w, moves)
    ensures Reachable(cfg, After(cfg, w, moves).rows)
  {
    if moves != [] {
      var front := moves[..|moves| - 1];
      RowsAreReachable(cfg, w, front);
      var before := After(cfg, w, front);
      var step := NextIsStep(cfg, before, Last(moves));
      if step.Some? {
        assert [step.value][..0] == [];
        assert Run(cfg, before.rows, [step.value]) == Apply(cfg, before.rows, step.value);
        ReachableRun(cfg, before.rows, [step.value]);
      }
    }
  }

  lemma StartIsReachable(cfg: Config, now: int, deadline: int, withPair: bool)
    ensures Reachable(cfg, Create(now, deadline, withPair))
  {
    assert Run(cfg, Create(now, deadline, withPair), []) == Create(now, deadline, withPair);
  }

  // ---------------------------------------------------------------- one worker for each execution

  /**
   An execution whose worker is still at it is not waiting and not reconciling, and
   nobody has claimed it since; what the worker read is still true while it matters.
  */
  predicate AtWork(r: Rows, i: nat, p: Phase)
    requires i < |r.claims|
  {
    var e := r.claims[i].execution;
    && e < |r.executions| && !r.executions[e].status.Waiting() && !r.executions[e].status.Reconciling?
    && (forall j :: i < j < |r.claims| ==> r.claims[j].execution != e)
    && match p
       case Started(cv) => r.status.Active() ==> cv == 1
       case Working(cv, token, lost) => (r.status.Active() ==> cv == 1) && (IsLeased(r, e) ==> token == r.executions[e].fencing)
       case Stopping(reason) => !r.status.Running?
       case _ => true
  }

  predicate Confined(w: World) {
    && |w.workers| == |w.rows.claims|
    && forall i :: 0 <= i < |w.workers| && !w.workers[i].Over? ==> AtWork(w.rows, i, w.workers[i])
  }

  /** Executions outside `touched` stay as they are, or end; the generation does not reopen. */
  predicate Retires(a: Rows, b: Rows, touched: set<nat>) {
    && b.claims == a.claims && |a.executions| <= |b.executions|
    && (b.status.Active() ==> a.status.Active()) && (b.status.Running? ==> a.status.Running?)
    && forall e :: 0 <= e < |a.executions| && e !in touched ==>
         || !b.executions[e].status.Live()
         || (b.executions[e].status == a.executions[e].status && b.executions[e].fencing == a.executions[e].fencing)
  }

  lemma AtWorkStays(a: Rows, b: Rows, touched: set<nat>, i: nat, p: Phase)
    requires Retires(a, b, touched) && i < |a.claims| && AtWork(a, i, p) && a.claims[i].execution !in touched
    ensures AtWork(b, i, p)
  {}

  lemma {:induction false} RecoverRetires(cfg: Config, r: Rows, n: nat, now: int)
    ensures Retires(r, RecoverUpTo(cfg, r, n, now), {})
  {
    if n > 0 { RecoverRetires(cfg, r, n - 1, now); }
  }

  lemma {:induction false} ExpireRetires(r: Rows, n: nat, now: int)
    ensures Retires(r, ExpireReconcilingUpTo(r, n, now), {})
  {
    if n > 0 { ExpireRetires(r, n - 1, now); }
  }

  lemma OutsideRetires(cfg: Config, r: Rows, step: Step)
    requires !step.Worker? || step.worker.HeartbeatStep?
    ensures Retires(r, Apply(cfg, r, step), if step.Maintenance? && step.maintenance.ReconcileStep? then {step.maintenance.e} else {})
  {
    match step
    case User(u) =>
    case Worker(h) =>
    case Maintenance(m) =>
      RecoverRetires(cfg, r, |r.executions|, m.now);
      ExpireRetires(r, |r.executions|, m.now);
  }

  lemma ActRetires(cfg: Config, r: Rows, e: nat, p: Phase, a: Action)
    requires May(p, a)
    ensures Retires(r, Acted(cfg, r, e, p, a), {e})
  {
    match a
    case Failure(code, now) => FailRetires(cfg, r, e, code, now);
    case _ =>
  }

  lemma FailRetires(cfg: Config, r: Rows, e: nat, code: ErrorCode, now: int)
    ensures Retires(r, Fail(cfg, r, e, code, now), {e})
  {}

  lemma OutsideKeeps(cfg: Config, w: World, step: Step)
    requires Confined(w) && Legal(w, Outside(step))
    ensures Confined(Next(cfg, w, Outside(step)))
  {
    OutsideRetires(cfg, w.rows, step);
    var after := Apply(cfg, w.rows, step);
    forall i | 0 <= i < |w.workers| && !w.workers[i].Over? ensures AtWork(after, i, w.workers[i]) {
      if step.Maintenance? && step.maintenance.ReconcileStep? && step.maintenance.e == w.rows.claims[i].execution {
        assert after == w.rows;
      } else {
        AtWorkStays(w.rows, after, if step.Maintenance? && step.maintenance.ReconcileStep? then {step.maintenance.e} else {}, i, w.workers[i]);
      }
    }
  }

  lemma ClaimKeeps(cfg: Config, w: World, e: nat, now: int)
    requires Confined(w)
    ensures Confined(Next(cfg, w, ClaimRow(e, now)))
  {
    var after := Next(cfg, w, ClaimRow(e, now));
    forall i | 0 <= i < |w.workers| && !w.workers[i].Over? ensures AtWork(after.rows, i, w.workers[i]) {
      assert AtWork(w.rows, i, w.workers[i]);
      var own := w.rows.claims[i].execution;
      assert after.rows.claims[i] == w.rows.claims[i];
      if e < |w.rows.executions| && w.rows.executions[e].status.Waiting() { assert own != e; }
    }
  }

  /** Nobody else is at work on the execution of a worker at work. */
  lemma WorkersApart(w: World, i: nat, j: nat)
    requires Confined(w) && i < |w.workers| && j < |w.workers| && i != j && !w.workers[i].Over? && !w.workers[j].Over?
    ensures w.rows.claims[i].execution != w.rows.claims[j].execution
  {
    assert AtWork(w.rows, i, w.workers[i]) && AtWork(w.rows, j, w.workers[j]);
  }

  lemma OwnActKeeps(cfg: Config, w: World, i: nat, a: Action)
    requires Confined(w) && FaceInv(w.rows) && Legal(w, Act(i, a)) && !Next(cfg, w, Act(i, a)).workers[i].Over?
    ensures AtWork(Next(cfg, w, Act(i, a)).rows, i, Next(cfg, w, Act(i, a)).workers[i])
  {
    assert AtWork(w.rows, i, w.workers[i]);
  }

  lemma ActKeeps(cfg: Config, w: World, i: nat, a: Action)
    requires Confined(w) && FaceInv(w.rows) && Legal(w, Act(i, a))
    ensures Confined(Next(cfg, w, Act(i, a)))
  {
    var after := Next(cfg, w, Act(i, a));
    ActRetires(cfg, w.rows, ExecutionOf(w, i), w.workers[i], a);
    forall j | 0 <= j < |after.workers| && !after.workers[j].Over? ensures AtWork(after.rows, j, after.workers[j]) {
      if j == i {
        OwnActKeeps(cfg, w, i, a);
      } else {
        WorkersApart(w, i, j);
        AtWorkStays(w.rows, after.rows, {ExecutionOf(w, i)}, j, w.workers[j]);
      }
    }
  }

  lemma MoveKeeps(cfg: Config, w: World, move: Move)
    requires Confined(w) && FaceInv(w.rows) && Legal(w, move)
    ensures Confined(Next(cfg, w, move))
  {
    match move
    case Outside(step) => OutsideKeeps(cfg, w, step);
    case ClaimRow(e, now) => ClaimKeeps(cfg, w, e, now);
    case Act(i, a) => ActKeeps(cfg, w, i, a);
  }

  lemma {:induction false} RunIsConfined(cfg: Config, w: World, moves: seq<Move>)
    requires Reachable(cfg, w.rows) && Confined(w) && LegalRun(cfg, w, moves)
    ensures Reachable(cfg, After(cfg, w, moves).rows) && Inv(cfg, After(cfg, w, moves).rows) && Confined(After(cfg, w, moves))
  {
    RowsAreReachable(cfg, w, moves);
    ReachableInv(cfg, After(cfg, w, moves).rows);
    if moves != [] {
      var front := moves[..|moves| - 1];
      RunIsConfined(cfg, w, front);
      MoveKeeps(cfg, After(cfg, w, front), Last(moves));
    }
  }

  /**
   The fence never fails a worker that still has a claim to its execution: it passes
   exactly while its execution is leased and the generation runs, whoever leased it.
  */
  lemma FencePassesWhileLeased(cfg: Config, w: World, moves: seq<Move>, i: nat)
    requires Reachable(cfg, w.rows) && Confined(w) && LegalRun(cfg, w, moves)
    requires i < |After(cfg, w, moves).workers| && After(cfg, w, moves).workers[i].Working?
    ensures var v := After(cfg, w, moves);
      FenceCurrent(v.rows, ExecutionOf(v, i), v.workers[i].token, v.workers[i].controlVersion)
      <==> IsLeased(v.rows, ExecutionOf(v, i)) && v.rows.status.Running?
  {
    RunIsConfined(cfg, w, moves);
    PassesWhileLeased(After(cfg, w, moves), i);
  }

  lemma PassesWhileLeased(w: World, i: nat)
    requires Confined(w) && FaceInv(w.rows) && i < |w.workers| && w.workers[i].Working?
    ensures FenceCurrent(w.rows, ExecutionOf(w, i), w.workers[i].token, w.workers[i].controlVersion)
      <==> IsLeased(w.rows, ExecutionOf(w, i)) && w.rows.status.Running?
  {
    assert AtWork(w.rows, i, w.workers[i]);
  }

  // ---------------------------------------------------------------- generations that nobody works on

  /** Someone works, or will work, on an open generation. */
  predicate Attended(r: Rows) {
    r.status.Active() && r.executions != [] && Last(r.executions).status.Live()
  }

  /** Still open for the client, but with no execution queued, waiting, running or reconciling. */
  predicate Abandoned(r: Rows) {
    r.status.Active() && forall i :: 0 <= i < |r.executions| ==> !r.executions[i].status.Live()
  }

  lemma AttendedOrAbandoned(cfg: Config, r: Rows)
    requires WorkInv(cfg, r) && r.status.Active()
    ensures Attended(r) <==> !Abandoned(r)
  {
    if Last(r.executions).status.Live() { assert r.executions[|r.executions| - 1].status.Live(); }
  }

  /** A transaction that cancels, by execution id, the running execution of a running generation. */
  predicate CancelsRunning(r: Rows, step: WorkerStep) {
    && r.status.Running?
    && match step
       case UpgradeStep(e, token, cv, skipped) => IsLeased(r, e) && !FenceSeen(r, e, token, cv, skipped)
       case PublishStep(e, token, cv, drafts, current, skipped) => IsLeased(r, e) && !FenceSeen(r, e, token, cv, skipped)
       case FailStep(e, code, now) => IsLeased(r, e) && code.StateConflict?
       case _ => false
  }

  lemma WorkerAbandons(cfg: Config, r: Rows, step: WorkerStep)
    requires WorkInv(cfg, r) && Attended(r)
    ensures ApplyWorker(cfg, r, step).status.Active() ==> (Attended(ApplyWorker(cfg, r, step)) <==> !CancelsRunning(r, step))
    ensures CancelsRunning(r, step) ==> ApplyWorker(cfg, r, step).status.Active()
  {
    match step
    case UpgradeStep(e, token, cv, skipped) =>
    case PublishStep(e, token, cv, drafts, current, skipped) =>
    case FailStep(e, code, now) => FailAbandons(cfg, r, e, code, now);
    case StopClaimedStep(e, reason) =>
    case ClaimStep(e, now) =>
    case HeartbeatStep(e, token, now) =>
    case CheckpointStep(e, token, cv, phase) =>
    case EmitStep(e, token, cv, what, skipped) =>
  }

  lemma FailAbandons(cfg: Config, r: Rows, e: nat, code: ErrorCode, now: int)
    requires WorkInv(cfg, r) && Attended(r)
    ensures Fail(cfg, r, e, code, now).status.Active() ==>
      (Attended(Fail(cfg, r, e, code, now)) <==> !(r.status.Running? && IsLeased(r, e) && code.StateConflict?))
    ensures r.status.Running? && IsLeased(r, e) && code.StateConflict? ==> Fail(cfg, r, e, code, now).status.Active()
  {}

  /** Recovery and expiry close an open generation or leave it attended. */
  lemma {:induction false} RecoverAttends(cfg: Config, r: Rows, n: nat, now: int)
    requires WorkInv(cfg, r) && Attended(r)
    ensures RecoverUpTo(cfg, r, n, now).status.Active() ==> Attended(RecoverUpTo(cfg, r, n, now))
  {
    if n > 0 {
      RecoverAttends(cfg, r, n - 1, now);
      RecoverWork(cfg, r, n - 1, now);
    }
  }

  lemma {:induction false} ExpireAttends(cfg: Config, r: Rows, n: nat, now: int)
    requires WorkInv(cfg, r) && Attended(r)
    ensures ExpireReconcilingUpTo(r, n, now).status.Active() ==> Attended(ExpireReconcilingUpTo(r, n, now))
  {
    if n > 0 {
      ExpireAttends(cfg, r, n - 1, now);
      ExpireWork(cfg, r, n - 1, now);
    }
  }

  lemma OutsideAttends(cfg: Config, r: Rows, step: Step)
    requires WorkInv(cfg, r) && Attended(r) && (!step.Worker? || step.worker.HeartbeatStep?)
    ensures Apply(cfg, r, step).status.Active() ==> Attended(Apply(cfg, r, step))
  {
    match step
    case User(u) =>
    case Worker(h) =>
    case Maintenance(m) =>
      RecoverAttends(cfg, r, |r.executions|, m.now);
      ExpireAttends(cfg, r, |r.executions|, m.now);
  }

  /**
   The worker of a running execution acts as if its fence were lost, and it is not:
   an upgrade or publication whose read of the locked row was skipped, or the failure
   that follows a stage whose read was.
  */
  predicate Misreads(w: World, move: Move) {
    && move.Act? && Legal(w, move) && w.workers[move.i].Working?
    && FenceCurrent(w.rows, ExecutionOf(w, move.i), w.workers[move.i].token, w.workers[move.i].controlVersion)
    && match move.action
       case Upgrade(skipped) => skipped
       case Publication(drafts, current, skipped) => skipped
       case Failure(code, now) => code.StateConflict?
       case _ => false
  }

  lemma MoveAttends(cfg: Config, w: World, move: Move)
    requires Confined(w) && Inv(cfg, w.rows) && Legal(w, move) && Attended(w.rows)
    ensures Next(cfg, w, move).rows.status.Active() ==> (Attended(Next(cfg, w, move).rows) <==> !Misreads(w, move))
  {
    match move
    case Outside(step) => OutsideAttends(cfg, w.rows, step);
    case ClaimRow(e, now) => WorkerAbandons(cfg, w.rows, ClaimStep(e, now));
    case Act(i, a) => ActAttends(cfg, w, i, a);
  }

  lemma ActAttends(cfg: Config, w: World, i: nat, a: Action)
    requires Confined(w) && Inv(cfg, w.rows) && Legal(w, Act(i, a)) && Attended(w.rows)
    ensures Next(cfg, w, Act(i, a)).rows.status.Active() ==> (Attended(Next(cfg, w, Act(i, a)).rows) <==> !Misreads(w, Act(i, a)))
  {
    var e, p := ExecutionOf(w, i), w.workers[i];
    if p.Working? { PassesWhileLeased(w, i); }
    var step := Transaction(e, p, a);
    if step.Some? {
      WorkerAbandons(cfg, w.rows, step.value);
      assert CancelsRunning(w.rows, step.value) <==> Misreads(w, Act(i, a));
    }
  }

  /** Some move of the run misreads. */
  ghost predicate Misread(cfg: Config, w: World, moves: seq<Move>) {
    moves != [] && (Misread(cfg, w, moves[..|moves| - 1]) || Misreads(After(cfg, w, moves[..|moves| - 1]), Last(moves)))
  }

  lemma {:induction false} RecoverLeavesAbandoned(cfg: Config, r: Rows, n: nat, now: int)
    requires Abandoned(r)
    ensures RecoverUpTo(cfg, r, n, now) == r && ExpireReconcilingUpTo(r, n, now) == r
  {
    if n > 0 { RecoverLeavesAbandoned(cfg, r, n - 1, now); }
  }

  lemma AbandonedStep(cfg: Config, r: Rows, step: Step)
    requires Abandoned(r)
    ensures Apply(cfg, r, step).claims == r.claims && (Apply(cfg, r, step).status.Active() ==> Abandoned(Apply(cfg, r, step)))
    ensures !Apply(cfg, r, step).status.Completed?
  {
    match step
    case User(u) =>
    case Worker(w) => AbandonedWorker(cfg, r, w);
    case Maintenance(m) => RecoverLeavesAbandoned(cfg, r, |r.executions|, m.now);
  }

  lemma AbandonedWorker(cfg: Config, r: Rows, w: WorkerStep)
    requires Abandoned(r)
    ensures ApplyWorker(cfg, r, w).claims == r.claims && !ApplyWorker(cfg, r, w).status.Completed?
    ensures ApplyWorker(cfg, r, w).status.Active() ==> Abandoned(ApplyWorker(cfg, r, w))
  {
    match w
    case UpgradeStep(e, token, cv, skipped) => assert !IsLeased(r, e);
    case PublishStep(e, token, cv, drafts, current, skipped) => assert !IsLeased(r, e);
    case FailStep(e, code, now) => assert !IsLeased(r, e);
    case _ =>
  }

  /** Nobody ever works on it again: it is never claimed, and can only be stopped or failed. */
  lemma {:induction false} AbandonedForGood(cfg: Config, r: Rows, steps: seq<Step>)
    requires Abandoned(r)
    ensures Run(cfg, r, steps).claims == r.claims && !Run(cfg, r, steps).status.Completed?
    ensures Run(cfg, r, steps).status.Active() ==> Abandoned(Run(cfg, r, steps))
  {
    if steps != [] {
      var front := steps[..|steps| - 1];
      AbandonedForGood(cfg, r, front);
      if Run(cfg, r, front).status.Active() {
        AbandonedStep(cfg, Run(cfg, r, front), Last(steps));
      } else {
        FinalStepClaims(cfg, Run(cfg, r, front), Last(steps));
      }
    }
  }

  lemma FinalStepClaims(cfg: Config, r: Rows, step: Step)
    requires !r.status.Active()
    ensures Apply(cfg, r, step).claims == r.claims && Apply(cfg, r, step).status == r.status
  {
    StepIsFinal(cfg, r, step);
    match step
    case User(u) =>
    case Worker(w) =>
    case Maintenance(m) =>
      RecoverGrows(cfg, r, |r.executions|, m.now);
      ExpireGrows(r, |r.executions|, m.now);
  }

  lemma MoveCounts(cfg: Config, w: World, move: Move, misread: bool)
    requires Confined(w) && Inv(cfg, w.rows) && Legal(w, move) && Inv(cfg, Next(cfg, w, move).rows)
    requires w.rows.status.Active() ==> (Attended(w.rows) <==> !misread)
    ensures Next(cfg, w, move).rows.status.Active() ==> (Attended(Next(cfg, w, move).rows) <==> !(misread || Misreads(w, move)))
  {
    if Attended(w.rows) {
      MoveAttends(cfg, w, move);
    } else {
      var step := NextIsStep(cfg, w, move);
      if w.rows.status.Active() { AttendedOrAbandoned(cfg, w.rows); }
      if step.Some? && w.rows.status.Active() { AbandonedStep(cfg, w.rows, step.value); }
      if step.Some? && !w.rows.status.Active() { StepIsFinal(cfg, w.rows, step.value); }
      if Next(cfg, w, move).rows.status.Active() { AttendedOrAbandoned(cfg, Next(cfg, w, move).rows); }
    }
  }

  lemma {:induction false} AttendedFrom(cfg: Config, w: World, moves: seq<Move>)
    requires Reachable(cfg, w.rows) && Confined(w) && Attended(w.rows) && LegalRun(cfg, w, moves)
    ensures After(cfg, w, moves).rows.status.Active() ==> (Attended(After(cfg, w, moves).rows) <==> !Misread(cfg, w, moves))
  {
    if moves != [] {
      var front := moves[..|moves| - 1];
      AttendedFrom(cfg, w, front);
      RunIsConfined(cfg, w, front);
      RunIsConfined(cfg, w, moves);
      MoveCounts(cfg, After(cfg, w, front), Last(moves), Misread(cfg, w, front));
    }
  }

  /**
   After any run of confined workers an open generation has someone to work on it if
   and only if no worker took a current fence for lost. The misreading is the only
   way in: not recovery, nor retry, reconciliation, stop or a late worker.
  */
  lemma AttendedIffNeverMisread(cfg: Config, now: int, deadline: int, withPair: bool, moves: seq<Move>)
    requires LegalRun(cfg, Start(now, deadline, withPair), moves)
    ensures After(cfg, Start(now, deadline, withPair), moves).rows.status.Active() ==>
      (Attended(After(cfg, Start(now, deadline, withPair), moves).rows) <==> !Misread(cfg, Start(now, deadline, withPair), moves))
  {
    StartIsReachable(cfg, now, deadline, withPair);
    AttendedFrom(cfg, Start(now, deadline, withPair), moves);
  }

  // ---------------------------------------------------------------- skipped reads

  /** A fenced read that found the row locked, by the worker's own heartbeat or by maintenance, and skipped it. */
  predicate Skips(move: Move) {
    move.Act? && match move.action
      case Log(what, skipped) => skipped
      case Upgrade(skipped) => skipped
      case Publication(drafts, current, skipped) => skipped
      case _ => false
  }

  /** A worker that has been refused is no longer the one of a running execution. */
  predicate LostForReason(w: World) {
    forall i :: 0 <= i < |w.workers| && w.workers[i].Working? && w.workers[i].lost ==>
      !(IsLeased(w.rows, ExecutionOf(w, i)) && w.rows.status.Running?)
  }

  lemma MoveLosesForReason(cfg: Config, w: World, move: Move)
    requires Confined(w) && FaceInv(w.rows) && LostForReason(w) && Legal(w, move) && !Skips(move)
    ensures LostForReason(Next(cfg, w, move))
  {
    var after := Next(cfg, w, move);
    match move
    case Outside(step) => OutsideRetires(cfg, w.rows, step);
    case ClaimRow(e, now) =>
    case Act(i, a) => ActRetires(cfg, w.rows, ExecutionOf(w, i), w.workers[i], a);
    forall j | 0 <= j < |after.workers| && after.workers[j].Working? && after.workers[j].lost
      ensures !(IsLeased(after.rows, ExecutionOf(after, j)) && after.rows.status.Running?)
    {
      assert j < |w.workers| && AtWork(w.rows, j, w.workers[j]) && ExecutionOf(after, j) == ExecutionOf(w, j);
      if move.Act? && j == move.i { PassesWhileLeased(w, j); }
      if move.Act? && j != move.i { WorkersApart(w, move.i, j); }
    }
  }

  lemma {:induction false} LostWithoutSkips(cfg: Config, w: World, moves: seq<Move>)
    requires Reachable(cfg, w.rows) && Confined(w) && LostForReason(w) && LegalRun(cfg, w, moves)
    requires forall k :: 0 <= k < |moves| ==> !Skips(moves[k])
    ensures LostForReason(After(cfg, w, moves)) && !Misread(cfg, w, moves)
  {
    if moves != [] {
      var front := moves[..|moves| - 1];
      LostWithoutSkips(cfg, w, front);
      RunIsConfined(cfg, w, front);
      assert !Skips(Last(moves));
      MoveLosesForReason(cfg, After(cfg, w, front), Last(moves));
      NoSkipNoMisreading(After(cfg, w, front), Last(moves));
    }
  }

  lemma NoSkipNoMisreading(w: World, move: Move)
    requires Confined(w) && FaceInv(w.rows) && LostForReason(w) && !Skips(move)
    ensures !Misreads(w, move)
  {
    if move.Act? && Legal(w, move) && w.workers[move.i].Working? { PassesWhileLeased(w, move.i); }
  }

  /** Without a skipped read every open generation of every run has a live newest execution. */
  lemma AlwaysAttended(cfg: Config, now: int, deadline: int, withPair: bool, moves: seq<Move>)
    requires LegalRun(cfg, Start(now, deadline, withPair), moves)
    requires forall k :: 0 <= k < |moves| ==> !Skips(moves[k])
    ensures After(cfg, Start(now, deadline, withPair), moves).rows.status.Active() ==>
      Attended(After(cfg, Start(now, deadline, withPair), moves).rows)
  {
    StartIsReachable(cfg, now, deadline, withPair);
    LostWithoutSkips(cfg, Start(now, deadline, withPair), moves);
    AttendedFrom(cfg, Start(now, deadline, withPair), moves);
  }

  // ---------------------------------------------------------------- runs of confined workers

  /** The moves of a worker that has just claimed up to its first transaction. */
  lemma Reads(cfg: Config, w: World, moves: seq<Move>, i: nat) returns (more: seq<Move>)
    requires LegalRun(cfg, w, moves) && i < |After(cfg, w, moves).workers| && After(cfg, w, moves).workers[i].Fresh?
    requires !After(cfg, w, moves).rows.status.StopRequested?
    ensures LegalRun(cfg, w, more)
    ensures var v := After(cfg, w, moves); var e := ExecutionOf(v, i);
      After(cfg, w, more) == World(v.rows, v.workers[i := Working(v.rows.controlVersion, if e < |v.rows.executions| then v.rows.executions[e].fencing else 0, false)])
  {
    Snoc(cfg, w, moves, Act(i, ReadGeneration));
    Snoc(cfg, w, moves + [Act(i, ReadGeneration)], Act(i, ReadFence));
    more := moves + [Act(i, ReadGeneration)] + [Act(i, ReadFence)];
  }

  /**
   A run of one worker that ends abandoned: it claims, reads, and its publication meets
   the row while the heartbeat has it locked. The answer is dropped and the execution
   cancelled, though the worker was the rightful one.
  */
  lemma AbandonedIsReachable(cfg: Config, drafts: seq<Draft>) returns (moves: seq<Move>)
    ensures LegalRun(cfg, Start(0, 1, false), moves) && Abandoned(After(cfg, Start(0, 1, false), moves).rows)
  {
    var w := Start(0, 1, false);
    Snoc(cfg, w, [], ClaimRow(0, 0));
    moves := Reads(cfg, w, [] + [ClaimRow(0, 0)], 0);
    Snoc(cfg, w, moves, Act(0, Publication(drafts, true, true)));
    moves := moves + [Act(0, Publication(drafts, true, true))];
  }

  /** The last of `n + 1` workers has just claimed the only execution. */
  predicate Reclaimed(v: World, n: nat) {
    && |v.workers| == |v.rows.claims| == n + 1 && v.workers[n].Fresh? && v.rows.claims[n].execution == 0
    && |v.rows.executions| == 1 && v.rows.executions[0].status.Leased? && v.rows.status.Running?
  }

  /** The state while its call is unknown, or may be made again. */
  predicate Released(v: World, n: nat, status: ExecutionStatus) {
    && |v.workers| == |v.rows.claims| == n + 1
    && |v.rows.executions| == 1 && v.rows.executions[0].status == status && v.rows.status.Running?
    && (status.RetryWait? ==> v.rows.executions[0].nextAttempt == 0)
  }

  lemma LosesAnswer(cfg: Config, v: World, n: nat)
    requires |v.workers| == |v.rows.claims| == n + 1 && v.workers[n].Working? && v.rows.claims[n].execution == 0
    requires |v.rows.executions| == 1 && v.rows.executions[0].status.Leased? && v.rows.status.Running?
    ensures Legal(v, Act(n, Failure(ProviderResultUnknown, 0)))
    ensures Released(Next(cfg, v, Act(n, Failure(ProviderResultUnknown, 0))), n, Reconciling)
  {}

  lemma RunsAgain(cfg: Config, v: World, n: nat)
    requires Released(v, n, Reconciling)
    ensures Released(Next(cfg, v, Outside(Maintenance(ReconcileStep(0, None, 0)))), n, RetryWait)
  {}

  lemma ClaimsAgain(cfg: Config, v: World, n: nat)
    requires Released(v, n, RetryWait)
    ensures Reclaimed(Next(cfg, v, ClaimRow(0, 0)), n + 1)
  {}

  /** With reconciliations the bound on claims is lost altogether: some run claims any number of times. */
  lemma {:induction false} ReconciliationsUnbound(cfg: Config, n: nat) returns (moves: seq<Move>)
    ensures LegalRun(cfg, Start(0, 1, false), moves) && Reclaimed(After(cfg, Start(0, 1, false), moves), n)
  {
    var w := Start(0, 1, false);
    if n == 0 {
      Snoc(cfg, w, [], ClaimRow(0, 0));
      moves := [] + [ClaimRow(0, 0)];
    } else {
      moves := ReconciliationsUnbound(cfg, n - 1);
      moves := Reads(cfg, w, moves, n - 1);
      LosesAnswer(cfg, After(cfg, w, moves), n - 1);
      Snoc(cfg, w, moves, Act(n - 1, Failure(ProviderResultUnknown, 0)));
      moves := moves + [Act(n - 1, Failure(ProviderResultUnknown, 0))];
      RunsAgain(cfg, After(cfg, w, moves), n - 1);
      Snoc(cfg, w, moves, Outside(Maintenance(ReconcileStep(0, None, 0))));
      moves := moves + [Outside(Maintenance(ReconcileStep(0, None, 0)))];
      ClaimsAgain(cfg, After(cfg, w, moves), n - 1);
      Snoc(cfg, w, moves, ClaimRow(0, 0));
      moves := moves + [ClaimRow(0, 0)];
    }
  }

  /** A stop over an unknown result is reached by an ask, a claim, a lost provider answer and a stop. */
  lemma StuckStopIsReachable(cfg: Config) returns (moves: seq<Move>)
    ensures LegalRun(cfg, Start(0, 1, false), moves) && StuckStop(After(cfg, Start(0, 1, false), moves).rows)
  {
    var w := Start(0, 1, false);
    Snoc(cfg, w, [], ClaimRow(0, 0));
    moves := Reads(cfg, w, [] + [ClaimRow(0, 0)], 0);
    Snoc(cfg, w, moves, Act(0, Failure(ProviderResultUnknown, 0)));
    moves := moves + [Act(0, Failure(ProviderResultUnknown, 0))];
    Snoc(cfg, w, moves, Outside(User(StopStep)));
    moves := moves + [Outside(User(StopStep))];
  }

  /** A worker at work whose execution has expired, and the execution that replaced it. */
  predicate Replaced(v: World, late: int) {
    && v.workers == [Working(1, 2, false)] && v.rows.claims == [Claimed(0, 2)] && v.rows.status.Running?
    && |v.rows.executions| == 2 && v.rows.executions[0].status.Expired?
    && v.rows.executions[1].status.Queued? && v.rows.executions[1].nextAttempt == late
  }

  lemma WorkerIsReplaced(cfg: Config) returns (moves: seq<Move>)
    requires cfg.maxPhysical >= 2
    ensures LegalRun(cfg, Start(0, cfg.leaseSeconds + 2, false), moves)
    ensures Replaced(After(cfg, Start(0, cfg.leaseSeconds + 2, false), moves), cfg.leaseSeconds + 1)
  {
    var w, late := Start(0, cfg.leaseSeconds + 2, false), cfg.leaseSeconds + 1;
    Snoc(cfg, w, [], ClaimRow(0, 0));
    moves := Reads(cfg, w, [] + [ClaimRow(0, 0)], 0);
    var held := After(cfg, w, moves).rows;
    assert RecoverUpTo(cfg, held, 0, late) == held;
    assert Recover(cfg, held, late) == RecoverOne(cfg, held, 0, late);
    Snoc(cfg, w, moves, Outside(Maintenance(RecoverStep(late))));
    moves := moves + [Outside(Maintenance(RecoverStep(late)))];
  }

  /** The former worker and the new one, whose execution stands as given. */
  predicate TwoWorkers(v: World, status: ExecutionStatus) {
    && |v.workers| == |v.rows.claims| == 2 && v.workers[0] == Working(1, 2, false)
    && v.rows.claims[0].execution == 0 && v.rows.claims[1].execution == 1
    && |v.rows.executions| == 2 && v.rows.executions[0].status.Expired? && v.rows.executions[1].status == status
  }

  lemma ReplacementClaims(cfg: Config, v: World, late: int)
    requires Replaced(v, late)
    ensures var u := Next(cfg, v, ClaimRow(1, late)); TwoWorkers(u, Leased) && u.workers[1].Fresh? && u.rows.status.Running?
  {}

  lemma ReplacementLosesAnswer(cfg: Config, v: World, late: int)
    requires TwoWorkers(v, Leased) && v.workers[1].Working? && v.rows.status.Running?
    ensures Legal(v, Act(1, Failure(ProviderResultUnknown, late)))
    ensures var u := Next(cfg, v, Act(1, Failure(ProviderResultUnknown, late))); TwoWorkers(u, Reconciling) && u.rows.status.Running?
  {}

  lemma FormerWorkerCloses(cfg: Config, v: World)
    requires TwoWorkers(v, Reconciling) && v.rows.status.Running?
    ensures var u := Next(cfg, v, Outside(User(StopStep)));
      StuckStop(u.rows) && Legal(u, Act(0, Upgrade(false))) && Next(cfg, u, Act(0, Upgrade(false))).rows.status.Stopped?
  {}

  /** The same wait, ended by a former worker: its execution has expired, and its effort upgrade finds the fence gone. */
  lemma LateUpgradeEndsWait(cfg: Config) returns (moves: seq<Move>)
    requires cfg.maxPhysical >= 2
    ensures LegalRun(cfg, Start(0, cfg.leaseSeconds + 2, false), moves + [Act(0, Upgrade(false))])
    ensures StuckStop(After(cfg, Start(0, cfg.leaseSeconds + 2, false), moves).rows)
    ensures After(cfg, Start(0, cfg.leaseSeconds + 2, false), moves + [Act(0, Upgrade(false))]).rows.status.Stopped?
  {
    var w, late := Start(0, cfg.leaseSeconds + 2, false), cfg.leaseSeconds + 1;
    moves := WorkerIsReplaced(cfg);
    ReplacementClaims(cfg, After(cfg, w, moves), late);
    Snoc(cfg, w, moves, ClaimRow(1, late));
    moves := Reads(cfg, w, moves + [ClaimRow(1, late)], 1);
    ReplacementLosesAnswer(cfg, After(cfg, w, moves), late);
    Snoc(cfg, w, moves, Act(1, Failure(ProviderResultUnknown, late)));
    moves := moves + [Act(1, Failure(ProviderResultUnknown, late))];
    FormerWorkerCloses(cfg, After(cfg, w, moves));
    Snoc(cfg, w, moves, Outside(User(StopStep)));
    moves := moves + [Outside(User(StopStep))];
    Snoc(cfg, w, moves, Act(0, Upgrade(false)));
  }
}

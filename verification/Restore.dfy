/**
 Restores (app/backup/service.py:241-344, 429-1073; app/backup/ops_service.py:508-539):
 seven ordered stages, a queue of repairs, and the read gate.

 Every transaction is one step. What the ports answer is part of the step: the
 facts found, the resources listed, the rebuilds that succeed, what still blocks.
*/
module Restore {
  import opened Options

  datatype SessionStatus = Accepted | Running | Blocked | Completed
  datatype StageStatus = StagePending | StageRunning | StageSucceeded | StageFailed
  datatype TargetStatus = TargetPending | TargetRunning | TargetSucceeded | TargetFailed
  datatype Repair = Open | Resolved

  /** A resource of a stage. Stages 0 and 1 restore facts, 2 to 6 rebuild what derives from them. */
  datatype Ref = Ref(stage: nat, resource: string)

  /** `calls` is what the rebuild port has seen for this target: the result of every committed call. */
  datatype Target = Target(status: TargetStatus, attempt: nat, epoch: nat, calls: seq<bool>)

  type Stages = stages: seq<StageStatus> | |stages| == STAGES witness seq(STAGES, k => StagePending)

  datatype Fact = Fact(size: int, sha: string)

  /**
   `restored` is what the snapshot ports have seen: the fact stages whose restore
   committed. `expected` are the rows of the backup's manifest, which never change;
   None if facts are not validated at all.
  */
  datatype Session = Session(
    status: SessionStatus, stages: Stages, targets: map<Ref, Target>, repairs: map<Ref, Repair>, restored: seq<nat>,
    expected: Option<map<string, Fact>>)

  datatype System = System(sessions: map<string, Session>, gate: Option<string>)

  const STAGES: nat := 7
  const FACT_STAGES: nat := 2
  const OBJECT_STORE: nat := 1

  /**
   What the ports answer during one call of `advance_restore`: the objects found by
   its first and by its second validation, whether snapshots restore and rebuilds are
   configured, what is listed, which rebuilds succeed, and whether something blocks.
  */
  datatype Env = Env(
    actual: map<string, Fact>, actualAgain: map<string, Fact>, restores: bool,
    rebuilds: bool, resources: set<string>, good: set<string>, blocking: bool)

  // ---------------------------------------------------------------- facts and repairs

  predicate Agrees(expected: map<string, Fact>, actual: map<string, Fact>, key: string) {
    key in expected && key in actual && expected[key] == actual[key]
  }

  /** The object-store repairs a validation opens, when they have no row yet: missing, different or orphaned objects. */
  function Mismatched(expected: map<string, Fact>, actual: map<string, Fact>): set<Ref> {
    set key | key in expected.Keys + actual.Keys && !Agrees(expected, actual, key) :: Ref(OBJECT_STORE, key)
  }

  /** `_validate_facts`: a row that exists is never reopened; a key that agrees resolves its row. */
  function ValidateFacts(repairs: map<Ref, Repair>, expected: Option<map<string, Fact>>, actual: map<string, Fact>): map<Ref, Repair> {
    if expected.None? then repairs
    else (map r | r in repairs.Keys + Mismatched(expected.value, actual) ::
            if r.stage == OBJECT_STORE && Agrees(expected.value, actual, r.resource) then Resolved
            else if r in repairs then repairs[r]
            else Open)
  }

  predicate HasOpen(repairs: map<Ref, Repair>) {
    exists r | r in repairs :: repairs[r].Open?
  }

  // ---------------------------------------------------------------- rebuilding targets

  predicate Due(t: Target) {
    t.status.TargetPending? || t.status.TargetFailed?
  }

  function Rebuilt(t: Target, ok: bool): Target {
    Target(if ok then TargetSucceeded else TargetFailed, t.attempt + 1, t.epoch + 1, t.calls + [ok])
  }

  function Upserted(targets: map<Ref, Target>, stage: nat, resources: set<string>): map<Ref, Target> {
    (map resource | resource in resources :: Ref(stage, resource) := Target(TargetPending, 0, 0, [])) + targets
  }

  function Executed(targets: map<Ref, Target>, stage: nat, good: set<string>): map<Ref, Target> {
    map r | r in targets :: if r.stage == stage && Due(targets[r]) then Rebuilt(targets[r], r.resource in good) else targets[r]
  }

  /** The targets of the stage that were due and failed again. */
  function FailedNow(targets: map<Ref, Target>, stage: nat, good: set<string>): set<Ref> {
    set r | r in targets && r.stage == stage && Due(targets[r]) && r.resource !in good
  }

  function Opened(repairs: map<Ref, Repair>, failed: set<Ref>): map<Ref, Repair> {
    (map r | r in failed :: Open) + repairs
  }

  predicate AnyFailed(targets: map<Ref, Target>, stage: nat) {
    exists r | r in targets :: r.stage == stage && targets[r].status.TargetFailed?
  }

  // ---------------------------------------------------------------- advancing a session

  predicate AllSucceeded(stages: Stages) {
    forall k :: 0 <= k < STAGES ==> stages[k].StageSucceeded?
  }

  predicate Runnable(stages: Stages, k: nat)
    requires k < STAGES
  {
    stages[k].StageFailed? || (stages[k].StageRunning? && k >= FACT_STAGES) || stages[k].StagePending?
  }

  /** The first stage that can run, from `k` on. */
  function FirstRunnable(stages: Stages, k: nat): (r: Option<nat>)
    requires k <= STAGES
    ensures r.Some? ==> k <= r.value < STAGES && Runnable(stages, r.value)
    ensures forall j :: k <= j < (if r.Some? then r.value else STAGES) ==> !Runnable(stages, j)
    decreases STAGES - k
  {
    if k == STAGES then None else if Runnable(stages, k) then Some(k) else FirstRunnable(stages, k + 1)
  }

  /** The session after a step, and whether the step opened the read gate. */
  datatype Advanced = Advanced(session: Session, reopened: bool)

  function PostGate(s: Session, blocking: bool): Advanced {
    if blocking || HasOpen(s.repairs) then Advanced(s.(status := Blocked), false)
    else Advanced(s.(status := Completed), true)
  }

  /** A fact stage: one snapshot restore; the object store is validated at once. */
  function FactStage(s: Session, k: nat, actual: map<string, Fact>): Session
    requires k < STAGES
  {
    var repairs := if k == OBJECT_STORE then ValidateFacts(s.repairs, s.expected, actual) else s.repairs;
    var failed := k == OBJECT_STORE && HasOpen(repairs);
    s.(stages := s.stages[k := if failed then StageFailed else StageSucceeded], repairs := repairs, restored := s.restored + [k])
  }

  /** A derived stage: list its resources, rebuild every target that has not succeeded. */
  function DerivedStage(s: Session, k: nat, resources: set<string>, good: set<string>): Session
    requires k < STAGES
  {
    var listed := Upserted(s.targets, k, resources);
    var targets := Executed(listed, k, good);
    s.(stages := s.stages[k := if AnyFailed(targets, k) then StageFailed else StageSucceeded],
       targets := targets, repairs := Opened(s.repairs, FailedNow(listed, k, good)))
  }

  /** `_execute_stage`; None when a port raises, and the transaction is rolled back. */
  function ExecuteStage(s: Session, k: nat, env: Env): Option<Session>
    requires k < STAGES
  {
    if k < FACT_STAGES then if env.restores then Some(FactStage(s, k, env.actualAgain)) else None
    else if env.rebuilds then Some(DerivedStage(s, k, env.resources, env.good)) else None
  }

  /** What `advance_restore` does once the session is known to be able to go on; None when a port raises. */
  function AdvanceStage(s: Session, env: Env): Option<Advanced> {
    var runnable := FirstRunnable(s.stages, 0);
    if runnable.None? then Some(if AllSucceeded(s.stages) then PostGate(s, env.blocking) else Advanced(s, false))
    else if s.stages[runnable.value].StageFailed? && runnable.value < FACT_STAGES then
      var repairs := ValidateFacts(s.repairs, s.expected, env.actualAgain);
      if HasOpen(repairs) then Some(Advanced(s.(repairs := repairs, status := Blocked), false))
      else Some(Advanced(s.(repairs := repairs, stages := s.stages[runnable.value := StageSucceeded]), false))
    else
      var executed := ExecuteStage(s.(status := Running), runnable.value, env);
      if executed.None? then None
      else if AllSucceeded(executed.value.stages) then Some(PostGate(executed.value, env.blocking))
      else Some(Advanced(executed.value, false))
  }

  /** A blocked session validates its facts first, and goes on once no repair is open. */
  function Resumed(s: Session, env: Env): Session {
    if !s.status.Blocked? then s
    else
      var repairs := ValidateFacts(s.repairs, s.expected, env.actual);
      s.(repairs := repairs, status := if HasOpen(repairs) then Blocked else Running)
  }

  /** `advance_restore`; a call in which a port raises leaves the session as it was. */
  function Advance(s: Session, env: Env): Advanced {
    if s.status.Completed? then Advanced(s, false)
    else
      var from := Resumed(s, env);
      if from.status.Blocked? then Advanced(from, false)
      else
        var on := AdvanceStage(from, env);
        if on.None? then Advanced(s, false) else on.value
  }

  /** `retry_target`; a missing target is a 404 and changes nothing. */
  function RetryTarget(s: Session, r: Ref, rebuilds: bool, ok: bool): Session {
    if r !in s.targets || s.targets[r].status.TargetSucceeded? || !rebuilds then s
    else s.(targets := s.targets[r := Rebuilt(s.targets[r], ok)],
            repairs := if !ok then Opened(s.repairs, {r}) else if r in s.repairs then s.repairs[r := Resolved] else s.repairs)
  }

  /** `retry_repair_target`: one more validation, whatever the repair was about. */
  function RetryRepair(s: Session, r: Ref, actual: map<string, Fact>): Session {
    if r !in s.repairs || s.repairs[r].Resolved? then s else s.(repairs := ValidateFacts(s.repairs, s.expected, actual))
  }

  // ---------------------------------------------------------------- the system

  function NewSession(expected: Option<map<string, Fact>>): Session {
    Session(Accepted, seq(STAGES, k => StagePending), map[], map[], [], expected)
  }

  predicate Active(s: Session) {
    !s.status.Completed?
  }

  /** The guard inside `start_restore`: it does not look at blocked sessions. */
  predicate InnerGuard(sys: System) {
    forall id | id in sys.sessions :: !sys.sessions[id].status.Accepted? && !sys.sessions[id].status.Running?
  }

  /** The guard of `_execute_start_restore`. */
  predicate OuterGuard(sys: System) {
    forall id | id in sys.sessions :: !Active(sys.sessions[id])
  }

  function InnerStart(sys: System, id: string, complete: bool, expected: Option<map<string, Fact>>): System {
    if !complete || !InnerGuard(sys) || id in sys.sessions then sys
    else System(sys.sessions[id := NewSession(expected)], Some(id))
  }

  /** Starting a restore under a new id, from a backup that may or may not be complete. */
  function Start(sys: System, id: string, complete: bool, expected: Option<map<string, Fact>>): System {
    if !OuterGuard(sys) then sys else InnerStart(sys, id, complete, expected)
  }

  datatype Call =
    | AdvanceCall(env: Env)
    | RetryTargetCall(r: Ref, rebuilds: bool, ok: bool)
    | RetryRepairCall(r: Ref, actual: map<string, Fact>)

  function ApplyCall(s: Session, call: Call): Advanced {
    match call
    case AdvanceCall(env) => Advance(s, env)
    case RetryTargetCall(r, rebuilds, ok) => Advanced(RetryTarget(s, r, rebuilds, ok), false)
    case RetryRepairCall(r, actual) => Advanced(RetryRepair(s, r, actual), false)
  }

  datatype Step = StartStep(id: string, complete: bool, expected: Option<map<string, Fact>>) | SessionStep(id: string, call: Call)

  function Apply(sys: System, step: Step): System {
    match step
    case StartStep(id, complete, expected) => Start(sys, id, complete, expected)
    case SessionStep(id, call) =>
      if id !in sys.sessions then sys
      else
        var on := ApplyCall(sys.sessions[id], call);
        System(sys.sessions[id := on.session], if on.reopened then None else sys.gate)
  }

  function Run(sys: System, steps: seq<Step>): System
    decreases |steps|
  {
    if steps == [] then sys else Run(Apply(sys, steps[0]), steps[1..])
  }
}

/** What restores promise over whole runs, and exactly when a restore can still complete. */
module RestoreTheorems {
  import opened Options
  import opened Restore
  import opened RestoreLaws

  const EMPTY: System := System(map[], None)

  /** The gate is closed for the one session that is not completed, and open when there is none. */
  predicate GateHolds(sys: System) {
    && (sys.gate.Some? ==> sys.gate.value in sys.sessions && Active(sys.sessions[sys.gate.value]))
    && (forall id | id in sys.sessions :: Active(sys.sessions[id]) ==> sys.gate == Some(id))
  }

  predicate SystemHolds(sys: System) {
    GateHolds(sys) && forall id | id in sys.sessions :: SessionHolds(sys.sessions[id])
  }

  predicate SystemGrows(sys: System, later: System) {
    forall id | id in sys.sessions :: id in later.sessions && SessionGrows(sys.sessions[id], later.sessions[id])
  }

  lemma StepKeeps(sys: System, step: Step)
    requires SystemHolds(sys)
    ensures SystemHolds(Apply(sys, step)) && SystemGrows(sys, Apply(sys, step))
  {
    match step
    case StartStep(id, complete, expected) => StartKeeps(sys, id, complete, expected);
    case SessionStep(id, call) => SessionStepKeeps(sys, id, call);
  }

  lemma StartKeeps(sys: System, id: string, complete: bool, expected: Option<map<string, Fact>>)
    requires SystemHolds(sys)
    ensures SystemHolds(Start(sys, id, complete, expected)) && SystemGrows(sys, Start(sys, id, complete, expected))
  {
    assert SessionHolds(NewSession(expected));
    assert SystemGrows(sys, sys);
  }

  lemma SessionStepKeeps(sys: System, id: string, call: Call)
    requires SystemHolds(sys)
    ensures SystemHolds(Apply(sys, SessionStep(id, call))) && SystemGrows(sys, Apply(sys, SessionStep(id, call)))
  {
    if id in sys.sessions {
      CallKeeps(sys.sessions[id], call);
      var on := ApplyCall(sys.sessions[id], call);
      SessionReplaced(sys, id, on.session, on.reopened);
    }
  }

  lemma SessionReplaced(sys: System, id: string, t: Session, reopened: bool)
    requires SystemHolds(sys) && id in sys.sessions && SessionHolds(t) && SessionGrows(sys.sessions[id], t)
    requires reopened <==> !sys.sessions[id].status.Completed? && t.status.Completed?
    ensures var on := System(sys.sessions[id := t], if reopened then None else sys.gate); SystemHolds(on) && SystemGrows(sys, on)
  {
    var on := System(sys.sessions[id := t], if reopened then None else sys.gate);
    forall other | other in sys.sessions ensures SessionHolds(on.sessions[other]) && SessionGrows(sys.sessions[other], on.sessions[other]) {
      GrowsRefl(sys.sessions[other]);
    }
  }

  lemma GrowsRefl(s: Session)
    ensures SessionGrows(s, s)
  {}

  lemma {:induction false} RunKeeps(sys: System, steps: seq<Step>)
    requires SystemHolds(sys)
    ensures SystemHolds(Run(sys, steps)) && SystemGrows(sys, Run(sys, steps))
    decreases |steps|
  {
    if steps != [] {
      StepKeeps(sys, steps[0]);
      var on := Apply(sys, steps[0]);
      RunKeeps(on, steps[1..]);
      forall id | id in sys.sessions ensures SessionGrows(sys.sessions[id], Run(sys, steps).sessions[id]) {
        GrowsTrans(sys.sessions[id], on.sessions[id], Run(on, steps[1..]).sessions[id]);
      }
    }
  }

  // ---------------------------------------------------------------- order, gate, at-most-once

  /** The stage vector: `p` succeeded stages, then perhaps one failed stage, then pending ones. */
  lemma StagesInOrder(steps: seq<Step>, id: string) returns (p: nat)
    requires id in Run(EMPTY, steps).sessions
    ensures var stages := Run(EMPTY, steps).sessions[id].stages;
      && p <= STAGES
      && (forall k :: 0 <= k < p ==> stages[k].StageSucceeded?)
      && (p < STAGES ==> stages[p].StageFailed? || stages[p].StagePending?)
      && (forall k :: p < k < STAGES ==> stages[k].StagePending?)
  {
    RunKeeps(EMPTY, steps);
    var stages := Run(EMPTY, steps).sessions[id].stages;
    p := 0;
    while p < STAGES && stages[p].StageSucceeded?
      invariant 0 <= p <= STAGES
      invariant forall k :: 0 <= k < p ==> stages[k].StageSucceeded?
    {
      p := p + 1;
    }
  }

  /** Reads are closed for `id` exactly when `id` is a restore that has not completed; there is never a second one. */
  lemma GateClosedIffActive(steps: seq<Step>, id: string)
    ensures var sys := Run(EMPTY, steps);
      && (sys.gate == Some(id) <==> id in sys.sessions && Active(sys.sessions[id]))
      && (sys.gate.None? <==> forall other | other in sys.sessions :: sys.sessions[other].status.Completed?)
  {
    RunKeeps(EMPTY, steps);
  }

  /** A step opens the gate only by completing its holder: seven succeeded stages, every target succeeded, no open repair. */
  lemma ReopensOnlyWhenRestored(steps: seq<Step>, step: Step, id: string)
    requires var sys := Run(EMPTY, steps); sys.gate == Some(id) && Apply(sys, step).gate != Some(id)
    ensures var on := Apply(Run(EMPTY, steps), step);
      && on.gate.None? && id in on.sessions && on.sessions[id].status.Completed?
      && AllSucceeded(on.sessions[id].stages) && !HasOpen(on.sessions[id].repairs)
      && (forall r | r in on.sessions[id].targets :: on.sessions[id].targets[r].status.TargetSucceeded?)
  {
    var sys := Run(EMPTY, steps);
    RunKeeps(EMPTY, steps);
    StepKeeps(sys, step);
    if step.SessionStep? && step.id in sys.sessions { CallKeeps(sys.sessions[step.id], step.call); }
    var on := Apply(sys, step).sessions[id];
    forall r | r in on.targets ensures on.targets[r].status.TargetSucceeded? {
      assert TargetAt(on.stages, r, on.targets[r]);
    }
  }

  /**
   Whatever a run does later: succeeded stages stay succeeded with the same
   succeeded targets, untouched; a completed restore never changes again.
  */
  lemma SucceededStays(steps: seq<Step>, more: seq<Step>, id: string, k: nat)
    requires id in Run(EMPTY, steps).sessions && k < STAGES && Run(EMPTY, steps).sessions[id].stages[k].StageSucceeded?
    ensures id in Run(Run(EMPTY, steps), more).sessions
    ensures StageKept(Run(EMPTY, steps).sessions[id], Run(Run(EMPTY, steps), more).sessions[id], k)
  {
    RunKeeps(EMPTY, steps);
    RunKeeps(Run(EMPTY, steps), more);
  }

  /** Stage `k` is as succeeded as it was, target by target. */
  predicate StageKept(s: Session, t: Session, k: nat)
    requires k < STAGES
  {
    && t.stages[k].StageSucceeded? && s.restored <= t.restored
    && (forall r | r in s.targets && r.stage == k :: r in t.targets && t.targets[r] == s.targets[r])
    && (forall r | r in t.targets && r.stage == k :: t.targets[r].status.TargetSucceeded?)
    && (s.status.Completed? ==> t == s)
  }

  /** Attempt and epoch count the committed rebuild calls, and no call follows a success. */
  lemma RebuildCallsCounted(steps: seq<Step>, id: string, r: Ref)
    requires id in Run(EMPTY, steps).sessions && r in Run(EMPTY, steps).sessions[id].targets
    ensures var t := Run(EMPTY, steps).sessions[id].targets[r];
      && t.attempt == t.epoch == |t.calls| >= 1
      && (forall i :: 0 <= i < |t.calls| && t.calls[i] ==> i == |t.calls| - 1 && t.status.TargetSucceeded?)
  {
    RunKeeps(EMPTY, steps);
    CallsCounted(Run(EMPTY, steps).sessions[id], r);
  }

  lemma CallsCounted(s: Session, r: Ref)
    requires SessionHolds(s) && r in s.targets
    ensures var t := s.targets[r];
      && t.attempt == t.epoch == |t.calls| >= 1
      && (forall i :: 0 <= i < |t.calls| && t.calls[i] ==> i == |t.calls| - 1 && t.status.TargetSucceeded?)
  {
    assert TargetAt(s.stages, r, s.targets[r]);
  }

  /** Each fact snapshot restore commits at most once, the database before the objects. */
  lemma FactsRestoredOnce(steps: seq<Step>, id: string)
    requires id in Run(EMPTY, steps).sessions
    ensures Run(EMPTY, steps).sessions[id].restored <= [0, 1]
    ensures var s := Run(EMPTY, steps).sessions[id];
      forall k: nat | k < STAGES :: k in s.restored <==> k < FACT_STAGES && !s.stages[k].StagePending?
  {
    RunKeeps(EMPTY, steps);
  }

  /**
   The guard inside `start_restore` is not enough by itself: in whatever state a
   run left the system, a new restore started through it alone keeps the gate
   with the one active restore if and only if none is blocked.
  */
  lemma InnerGuardMissesBlocked(steps: seq<Step>, id: string, expected: Option<map<string, Fact>>)
    requires InnerGuard(Run(EMPTY, steps)) && id !in Run(EMPTY, steps).sessions
    ensures GateHolds(InnerStart(Run(EMPTY, steps), id, true, expected)) <==>
      forall other | other in Run(EMPTY, steps).sessions :: !Run(EMPTY, steps).sessions[other].status.Blocked?
  {
    RunKeeps(EMPTY, steps);
    BlockedBreaksGate(Run(EMPTY, steps), id, expected);
  }

  lemma BlockedBreaksGate(sys: System, id: string, expected: Option<map<string, Fact>>)
    requires InnerGuard(sys) && id !in sys.sessions
    ensures GateHolds(InnerStart(sys, id, true, expected)) <==> forall other | other in sys.sessions :: !sys.sessions[other].status.Blocked?
  {
    var on := InnerStart(sys, id, true, expected);
    forall other | other in sys.sessions ensures on.sessions[other] == sys.sessions[other] {}
  }

  // ---------------------------------------------------------------- when a restore is stuck

  /** A target that succeeded while its repair row is still open: nothing resolves that row any more. */
  predicate DerivedStuck(targets: map<Ref, Target>, repairs: map<Ref, Repair>) {
    exists r | r in targets :: targets[r].status.TargetSucceeded? && r in repairs && repairs[r].Open?
  }

  /** An open repair of an object that the manifest does not list: validation resolves listed objects only. */
  predicate OrphanStuck(repairs: map<Ref, Repair>, expected: Option<map<string, Fact>>) {
    expected.Some? && exists r | r in repairs :: r.stage == OBJECT_STORE && repairs[r].Open? && r.resource !in expected.value
  }

  predicate Stuck(s: Session) {
    DerivedStuck(s.targets, s.repairs) || OrphanStuck(s.repairs, s.expected)
  }

  /** The objects found include one that the manifest does not list and that has no repair row yet. */
  predicate NewOrphan(repairs: map<Ref, Repair>, expected: Option<map<string, Fact>>, actual: map<string, Fact>) {
    expected.Some? && exists key | key in actual :: key !in expected.value && Ref(OBJECT_STORE, key) !in repairs
  }

  /** The next stage of a session that is free to go on: which rebuilds, or which validation, would get it stuck. */
  predicate StageSticks(s: Session, env: Env) {
    var runnable := FirstRunnable(s.stages, 0);
    runnable.Some? &&
    if runnable.value >= FACT_STAGES then
      env.rebuilds && exists r | r in FailedTargets(s) :: r.stage == runnable.value && r.resource in env.good
    else
      runnable.value == OBJECT_STORE && (env.restores || s.stages[OBJECT_STORE].StageFailed?) && NewOrphan(s.repairs, s.expected, env.actualAgain)
  }

  /** What the caller could see before the call: it rebuilds a failed target other than by its own retry, or validates in the presence of a new orphan. */
  predicate Sticks(s: Session, call: Call) {
    match call
    case AdvanceCall(env) =>
      Active(s) &&
      if s.status.Blocked? && NewOrphan(s.repairs, s.expected, env.actual) then true
      else !Resumed(s, env).status.Blocked? && StageSticks(Resumed(s, env), env)
    case RetryTargetCall(r, rebuilds, ok) => false
    case RetryRepairCall(r, actual) => r in s.repairs && s.repairs[r].Open? && NewOrphan(s.repairs, s.expected, actual)
  }

  lemma ValidationSticks(repairs: map<Ref, Repair>, expected: Option<map<string, Fact>>, actual: map<string, Fact>)
    ensures OrphanStuck(ValidateFacts(repairs, expected, actual), expected) <==> OrphanStuck(repairs, expected) || NewOrphan(repairs, expected, actual)
  {
    if expected.Some? {
      var later := ValidateFacts(repairs, expected, actual);
      if NewOrphan(repairs, expected, actual) {
        var key :| key in actual && key !in expected.value && Ref(OBJECT_STORE, key) !in repairs;
        assert Ref(OBJECT_STORE, key) in Mismatched(expected.value, actual) && later[Ref(OBJECT_STORE, key)].Open?;
      }
      if OrphanStuck(repairs, expected) {
        var r :| r in repairs && r.stage == OBJECT_STORE && repairs[r].Open? && r.resource !in expected.value;
        assert later[r].Open?;
      }
      if OrphanStuck(later, expected) {
        var r :| r in later && r.stage == OBJECT_STORE && later[r].Open? && r.resource !in expected.value;
        assert r in repairs || r.resource in actual;
      }
    }
  }

  lemma ValidationLeavesDerived(targets: map<Ref, Target>, repairs: map<Ref, Repair>, expected: Option<map<string, Fact>>, actual: map<string, Fact>)
    requires forall r | r in targets :: r.stage >= FACT_STAGES
    ensures DerivedStuck(targets, ValidateFacts(repairs, expected, actual)) <==> DerivedStuck(targets, repairs)
  {
    var later := ValidateFacts(repairs, expected, actual);
    forall r | r in targets ensures (r in later <==> r in repairs) && (r in repairs ==> later[r] == repairs[r]) {}
  }

  /** Validating a session's facts: the targets are not touched, the orphans are as above. */
  lemma ValidatedSticks(s: Session, actual: map<string, Fact>)
    requires SessionHolds(s)
    ensures Stuck(s.(repairs := ValidateFacts(s.repairs, s.expected, actual))) <==> Stuck(s) || NewOrphan(s.repairs, s.expected, actual)
  {
    ValidationSticks(s.repairs, s.expected, actual);
    forall r | r in s.targets ensures r.stage >= FACT_STAGES {
      assert TargetAt(s.stages, r, s.targets[r]);
    }
    ValidationLeavesDerived(s.targets, s.repairs, s.expected, actual);
  }

  /** A derived stage gets stuck exactly by rebuilding a target that had failed. */
  lemma DerivedStageSticks(s: Session, k: nat, resources: set<string>, good: set<string>)
    requires SessionHolds(s) && FACT_STAGES <= k < STAGES
    ensures Stuck(DerivedStage(s, k, resources, good)) <==>
      Stuck(s) || exists r | r in FailedTargets(s) :: r.stage == k && r.resource in good
  {
    var listed := Upserted(s.targets, k, resources);
    var targets, repairs := Executed(listed, k, good), Opened(s.repairs, FailedNow(listed, k, good));
    OpenedLeavesOrphans(s.repairs, FailedNow(listed, k, good), s.expected);
    forall r | r in s.targets ensures TargetAt(s.stages, r, s.targets[r]) && listed[r] == s.targets[r] {}
    if DerivedStuck(targets, repairs) {
      var r :| r in targets && targets[r].status.TargetSucceeded? && r in repairs && repairs[r].Open?;
      assert r !in FailedNow(listed, k, good);
      assert r in s.repairs && r in s.targets;
      assert s.targets[r].status.TargetSucceeded? || r in FailedTargets(s);
    }
    if DerivedStuck(s.targets, s.repairs) {
      var r :| r in s.targets && s.targets[r].status.TargetSucceeded? && r in s.repairs && s.repairs[r].Open?;
      assert targets[r] == s.targets[r] && repairs[r].Open?;
    }
    forall r | r in FailedTargets(s) && r.stage == k && r.resource in good ensures DerivedStuck(targets, repairs) {
      assert targets[r].status.TargetSucceeded? && r in s.repairs && repairs[r].Open?;
    }
  }

  lemma OpenedLeavesOrphans(repairs: map<Ref, Repair>, failed: set<Ref>, expected: Option<map<string, Fact>>)
    requires forall r | r in failed :: r.stage != OBJECT_STORE
    ensures OrphanStuck(Opened(repairs, failed), expected) <==> OrphanStuck(repairs, expected)
  {
    forall r: Ref | r.stage == OBJECT_STORE
      ensures (r in Opened(repairs, failed) <==> r in repairs) && (r in repairs ==> Opened(repairs, failed)[r] == repairs[r])
    {}
  }

  predicate ExecutionSticks(s: Session, k: nat, env: Env) {
    if k >= FACT_STAGES then exists r | r in FailedTargets(s) :: r.stage == k && r.resource in env.good
    else k == OBJECT_STORE && NewOrphan(s.repairs, s.expected, env.actualAgain)
  }

  lemma ExecutedSticks(s: Session, k: nat, env: Env)
    requires SessionHolds(s) && FirstRunnable(s.stages, 0) == Some(k) && ExecuteStage(s, k, env).Some?
    ensures Stuck(ExecuteStage(s, k, env).value) <==> Stuck(s) || ExecutionSticks(s, k, env)
  {
    if k >= FACT_STAGES {
      DerivedStageSticks(s, k, env.resources, env.good);
    } else if k == OBJECT_STORE {
      ValidatedSticks(s, env.actualAgain);
    }
  }

  lemma AdvanceStageSticks(s: Session, env: Env)
    requires SessionHolds(s) && Active(s) && AdvanceStage(s, env).Some?
    ensures Stuck(AdvanceStage(s, env).value.session) <==> Stuck(s) || StageSticks(s, env)
  {
    var runnable := FirstRunnable(s.stages, 0);
    if runnable.None? {
      GateSticksNot(s, env.blocking);
    } else if s.stages[runnable.value].StageFailed? && runnable.value < FACT_STAGES {
      assert runnable.value == OBJECT_STORE;
      ValidatedSticks(s, env.actualAgain);
    } else {
      ExecutedSticks(s.(status := Running), runnable.value, env);
      GateSticksNot(ExecuteStage(s.(status := Running), runnable.value, env).value, env.blocking);
    }
  }

  lemma GateSticksNot(s: Session, blocking: bool)
    ensures Stuck(PostGate(s, blocking).session) <==> Stuck(s)
  {}

  /** A port that raises in a stage that cannot stick: nothing changes and nothing sticks. */
  lemma RaisedSticksNot(s: Session, env: Env)
    requires SessionHolds(s) && AdvanceStage(s, env).None?
    ensures !StageSticks(s, env)
  {}

  lemma AdvanceSticks(s: Session, env: Env)
    requires SessionHolds(s)
    ensures Stuck(Advance(s, env).session) <==> Stuck(s) || Sticks(s, AdvanceCall(env))
  {
    if Active(s) {
      var from := Resumed(s, env);
      ResumedKeeps(s, env);
      if s.status.Blocked? { ValidatedSticks(s, env.actual); }
      assert Stuck(from) <==> Stuck(s) || (s.status.Blocked? && NewOrphan(s.repairs, s.expected, env.actual));
      if !from.status.Blocked? {
        assert !HasOpen(from.repairs) || !s.status.Blocked?;
        if AdvanceStage(from, env).Some? {
          AdvanceStageSticks(from, env);
        } else {
          RaisedSticksNot(from, env);
        }
      }
    }
  }

  /**
   A call gets a session stuck, or leaves it so, exactly when it was stuck before
   or the call was one that sticks: seen from the session and what the ports answer.
  */
  lemma StuckAfterIffSticks(s: Session, call: Call)
    requires SessionHolds(s)
    ensures Stuck(ApplyCall(s, call).session) <==> Stuck(s) || Sticks(s, call)
  {
    match call
    case AdvanceCall(env) => AdvanceSticks(s, env);
    case RetryTargetCall(r, rebuilds, ok) => RetrySticksNot(s, r, rebuilds, ok);
    case RetryRepairCall(r, actual) => if r in s.repairs && s.repairs[r].Open? { ValidatedSticks(s, actual); }
  }

  /** A target's own retry never sticks: its success resolves the repair with it. */
  lemma RetrySticksNot(s: Session, r: Ref, rebuilds: bool, ok: bool)
    requires SessionHolds(s)
    ensures Stuck(RetryTarget(s, r, rebuilds, ok)) <==> Stuck(s)
  {
    var t := RetryTarget(s, r, rebuilds, ok);
    if t != s {
      assert TargetAt(s.stages, r, s.targets[r]) && s.repairs[r].Open?;
      OpenedLeavesOrphans(s.repairs, {r}, s.expected);
      forall q | q in s.repairs && q.stage == OBJECT_STORE ensures q in t.repairs && t.repairs[q] == s.repairs[q] {}
      forall q | q in s.targets && q != r ensures t.targets[q] == s.targets[q] && (q in s.repairs <==> q in t.repairs) {}
    }
  }

  function RunCalls(s: Session, calls: seq<Call>): Session
    decreases |calls|
  {
    if calls == [] then s else RunCalls(ApplyCall(s, calls[0]).session, calls[1..])
  }

  ghost predicate CanComplete(s: Session) {
    exists calls :: RunCalls(s, calls).status.Completed?
  }

  lemma StuckHasOpen(s: Session)
    requires SessionHolds(s) && Stuck(s)
    ensures HasOpen(s.repairs) && !s.status.Completed?
  {}

  /** No sequence of calls completes a stuck session. */
  lemma {:induction false} StuckForever(s: Session, calls: seq<Call>)
    requires SessionHolds(s) && Stuck(s)
    ensures !RunCalls(s, calls).status.Completed?
    decreases |calls|
  {
    StuckHasOpen(s);
    if calls != [] {
      StuckAfterIffSticks(s, calls[0]);
      CallKeeps(s, calls[0]);
      StuckForever(ApplyCall(s, calls[0]).session, calls[1..]);
    }
  }

  // ---------------------------------------------------------------- when a restore can still complete

  lemma {:induction false} CallsSplit(s: Session, calls: seq<Call>, more: seq<Call>)
    ensures RunCalls(s, calls + more) == RunCalls(RunCalls(s, calls), more)
    decreases |calls|
  {
    if calls == [] {
      assert [] + more == more;
    } else {
      assert (calls + more)[1..] == calls[1..] + more;
      CallsSplit(ApplyCall(s, calls[0]).session, calls[1..], more);
    }
  }

  function FailedTargets(s: Session): set<Ref> {
    set r | r in s.targets && s.targets[r].status.TargetFailed?
  }

  lemma RetryOne(s: Session, r: Ref)
    requires SessionHolds(s) && !Stuck(s) && r in FailedTargets(s)
    ensures SessionHolds(RetryTarget(s, r, true, true)) && !Stuck(RetryTarget(s, r, true, true))
    ensures FailedTargets(RetryTarget(s, r, true, true)) == FailedTargets(s) - {r}
  {
    RetryTargetKeeps(s, r, true, true);
    RetrySticksNot(s, r, true, true);
  }

  /** Retrying each failed target by itself resolves its repair with it. */
  lemma {:induction false} RetryAll(s: Session) returns (calls: seq<Call>)
    requires SessionHolds(s) && !Stuck(s)
    ensures SessionHolds(RunCalls(s, calls)) && !Stuck(RunCalls(s, calls)) && FailedTargets(RunCalls(s, calls)) == {}
    decreases |FailedTargets(s)|
  {
    if FailedTargets(s) == {} {
      calls := [];
    } else {
      var r :| r in FailedTargets(s);
      RetryOne(s, r);
      var others := RetryAll(RetryTarget(s, r, true, true));
      calls := [RetryTargetCall(r, true, true)] + others;
      assert calls[1..] == others;
    }
  }

  /** The objects just as the manifest lists them. */
  function Manifest(s: Session): map<string, Fact> {
    if s.expected.Some? then s.expected.value else map[]
  }

  /** Found so, every listed object is resolved, and nothing is opened. */
  lemma ManifestResolves(s: Session)
    requires s.expected.Some?
    ensures ValidateFacts(s.repairs, s.expected, Manifest(s)).Keys == s.repairs.Keys
    ensures forall r | r in s.repairs ::
      (ValidateFacts(s.repairs, s.expected, Manifest(s))[r] ==
       if r.stage == OBJECT_STORE && r.resource in s.expected.value then Resolved else s.repairs[r])
  {
    assert Mismatched(s.expected.value, Manifest(s)) == {};
  }

  /** That validation resolves what is left once no target is failed. */
  lemma ResolveFacts(s: Session) returns (calls: seq<Call>)
    requires SessionHolds(s) && !Stuck(s) && FailedTargets(s) == {}
    ensures SessionHolds(RunCalls(s, calls)) && FailedTargets(RunCalls(s, calls)) == {} && !HasOpen(RunCalls(s, calls).repairs)
  {
    calls := [];
    forall q | q in s.repairs && q.stage != OBJECT_STORE ensures !s.repairs[q].Open? {
      assert q in s.targets && TargetAt(s.stages, q, s.targets[q]) && q !in FailedTargets(s);
    }
    if HasOpen(s.repairs) {
      var r :| r in s.repairs && s.repairs[r].Open?;
      var call := RetryRepairCall(r, Manifest(s));
      var t := s.(repairs := ValidateFacts(s.repairs, s.expected, Manifest(s)));
      assert ApplyCall(s, call).session == t;
      CallKeeps(s, call);
      ManifestResolves(s);
      assert FailedTargets(t) == FailedTargets(s);
      calls := [call];
      assert RunCalls(t, []) == t && calls[1..] == [];
    }
  }

  /** A step in which every port works, the objects are as listed, no resource is new and nothing blocks. */
  function Smooth(s: Session): Env {
    Env(Manifest(s), Manifest(s), true, true, {}, {}, false)
  }

  lemma NothingOpens(s: Session)
    requires !HasOpen(s.repairs)
    ensures ValidateFacts(s.repairs, s.expected, Manifest(s)) == s.repairs
  {
    if s.expected.Some? { ManifestResolves(s); }
  }

  function Front(s: Session): nat {
    var runnable := FirstRunnable(s.stages, 0);
    if runnable.None? then STAGES else runnable.value
  }

  lemma NothingDue(s: Session, k: nat)
    requires SessionHolds(s) && FailedTargets(s) == {} && k < STAGES
    ensures Executed(Upserted(s.targets, k, {}), k, {}) == s.targets && FailedNow(Upserted(s.targets, k, {}), k, {}) == {}
    ensures !AnyFailed(s.targets, k)
  {
    assert Upserted(s.targets, k, {}) == s.targets;
    forall r | r in s.targets ensures !Due(s.targets[r]) {
      assert TargetAt(s.stages, r, s.targets[r]) && r !in FailedTargets(s);
    }
  }

  /** Running, or re-validating, the stage in front makes it succeed. */
  lemma SmoothStage(s: Session, k: nat)
    requires SessionHolds(s) && FailedTargets(s) == {} && !HasOpen(s.repairs) && FirstRunnable(s.stages, 0) == Some(k)
    ensures var t := s.(stages := s.stages[k := StageSucceeded]);
      if s.stages[k].StageFailed? && k < FACT_STAGES then AdvanceStage(s, Smooth(s)) == Some(Advanced(t, false))
      else ExecuteStage(s.(status := Running), k, Smooth(s)) ==
           Some(t.(status := Running, restored := if k < FACT_STAGES then s.restored + [k] else s.restored))
  {
    NothingDue(s, k);
    NothingOpens(s);
    assert Opened(s.repairs, {}) == s.repairs;
  }

  lemma NoneRunnable(stages: Stages)
    requires StagesHold(stages) && FirstRunnable(stages, 0).None?
    ensures AllSucceeded(stages)
  {
    forall k | 0 <= k < STAGES ensures stages[k].StageSucceeded? {
      assert !Runnable(stages, k);
    }
  }

  lemma SmoothAdvance(s: Session)
    requires SessionHolds(s) && FailedTargets(s) == {} && !HasOpen(s.repairs) && Active(s)
    ensures AdvanceStage(s, Smooth(s)).Some?
    ensures Smoothed(s, AdvanceStage(s, Smooth(s)).value.session)
  {
    var runnable := FirstRunnable(s.stages, 0);
    if runnable.None? {
      NoneRunnable(s.stages);
    } else {
      SmoothStage(s, runnable.value);
      FrontMoves(s.stages, runnable.value);
      if !(s.stages[runnable.value].StageFailed? && runnable.value < FACT_STAGES) {
        var executed := ExecuteStage(s.(status := Running), runnable.value, Smooth(s)).value;
        assert executed.repairs == s.repairs && executed.targets == s.targets;
        assert PostGate(executed, false).session == executed.(status := Completed);
      }
    }
  }

  /** Completed, or one stage further, with the same rows. */
  predicate Smoothed(s: Session, t: Session) {
    t.targets == s.targets && t.repairs == s.repairs && (t.status.Completed? || Front(t) > Front(s))
  }

  lemma FrontMoves(stages: Stages, k: nat)
    requires FirstRunnable(stages, 0) == Some(k)
    ensures FirstRunnable(stages[k := StageSucceeded], 0).None? || FirstRunnable(stages[k := StageSucceeded], 0).value > k
  {
    var later: Stages := stages[k := StageSucceeded];
    forall j | 0 <= j <= k ensures !Runnable(later, j) {
      assert j < k ==> !Runnable(stages, j);
    }
  }

  lemma SmoothStep(s: Session)
    requires SessionHolds(s) && FailedTargets(s) == {} && !HasOpen(s.repairs) && Active(s)
    ensures SessionHolds(Advance(s, Smooth(s)).session) && Smoothed(s, Advance(s, Smooth(s)).session)
  {
    AdvanceKeeps(s, Smooth(s));
    ResumedKeeps(s, Smooth(s));
    NothingOpens(s);
    assert Smooth(Resumed(s, Smooth(s))) == Smooth(s);
    SmoothAdvance(Resumed(s, Smooth(s)));
  }

  lemma {:induction false} AdvanceToTheEnd(s: Session) returns (calls: seq<Call>)
    requires SessionHolds(s) && FailedTargets(s) == {} && !HasOpen(s.repairs)
    ensures RunCalls(s, calls).status.Completed?
    decreases STAGES - Front(s), Active(s)
  {
    if s.status.Completed? {
      calls := [];
    } else {
      SmoothStep(s);
      var t := Advance(s, Smooth(s)).session;
      assert FailedTargets(t) == FailedTargets(s);
      if t.status.Completed? {
        calls := [AdvanceCall(Smooth(s))];
        assert calls[1..] == [];
      } else {
        var others := AdvanceToTheEnd(t);
        calls := [AdvanceCall(Smooth(s))] + others;
        assert calls[1..] == others;
      }
    }
  }

  /**
   A restore can still complete, with ports that answer well from now on, if and
   only if no succeeded target has been left with an open repair and no repair is
   open for an object that the manifest does not list.
  */
  lemma CanCompleteIffNotStuck(s: Session)
    requires SessionHolds(s)
    ensures CanComplete(s) <==> !Stuck(s)
  {
    if Stuck(s) {
      forall calls ensures !RunCalls(s, calls).status.Completed? {
        StuckForever(s, calls);
      }
    } else {
      var a := RetryAll(s);
      var t := RunCalls(s, a);
      var b := ResolveFacts(t);
      var u := RunCalls(t, b);
      var c := AdvanceToTheEnd(u);
      CallsSplit(s, a, b + c);
      CallsSplit(t, b, c);
      assert RunCalls(s, a + (b + c)).status.Completed?;
    }
  }

  // ---------------------------------------------------------------- runs that get stuck

  /** A restore whose database is back and whose objects come next. */
  function DatabaseDone(expected: Option<map<string, Fact>>): Session {
    NewSession(expected).(status := Running, stages := NewSession(expected).stages[0 := StageSucceeded], restored := [0])
  }

  lemma DatabaseFirst(expected: Option<map<string, Fact>>, env: Env)
    requires env.restores
    ensures ApplyCall(NewSession(expected), AdvanceCall(env)).session == DatabaseDone(expected)
    ensures SessionHolds(NewSession(expected)) && SessionHolds(DatabaseDone(expected))
  {
    assert Runnable(NewSession(expected).stages, 0);
    CallKeeps(NewSession(expected), AdvanceCall(env));
  }

  /** From a fresh restore, one orphaned object after the object restore gets it stuck. */
  lemma OrphanStuckIsReachable(listed: map<string, Fact>, key: string, fact: Fact) returns (calls: seq<Call>)
    requires key !in listed
    ensures OrphanStuck(RunCalls(NewSession(Some(listed)), calls).repairs, Some(listed))
  {
    var env := Env(listed[key := fact], listed[key := fact], true, true, {}, {}, false);
    var s := DatabaseDone(Some(listed));
    DatabaseFirst(Some(listed), env);
    assert !Runnable(s.stages, 0) && Runnable(s.stages, 1);
    assert FirstRunnable(s.stages, 0) == FirstRunnable(s.stages, 1) == Some(1);
    assert key in env.actualAgain;
    StuckAfterIffSticks(s, AdvanceCall(env));
    CallKeeps(s, AdvanceCall(env));
    var t := ApplyCall(s, AdvanceCall(env)).session;
    assert t.expected == Some(listed) && t.targets == map[];
    calls := [AdvanceCall(env), AdvanceCall(env)];
    assert RunCalls(s, calls[1..]) == RunCalls(t, calls[1..][1..]) == t;
  }

  function FactsDone(expected: Option<map<string, Fact>>): Session {
    DatabaseDone(expected).(stages := DatabaseDone(expected).stages[1 := StageSucceeded], restored := [0, 1])
  }

  lemma ObjectsNext(expected: Option<map<string, Fact>>)
    ensures ApplyCall(DatabaseDone(expected), AdvanceCall(Smooth(DatabaseDone(expected)))).session == FactsDone(expected)
    ensures SessionHolds(FactsDone(expected))
  {
    var s := DatabaseDone(expected);
    DatabaseFirst(expected, Smooth(s));
    assert !Runnable(s.stages, 0) && Runnable(s.stages, 1);
    assert FirstRunnable(s.stages, 0) == FirstRunnable(s.stages, 1) == Some(1);
    NothingOpens(s);
    assert [0] + [OBJECT_STORE] == [0, 1];
    assert FactStage(s, 1, Manifest(s)) == FactsDone(expected);
    assert FactsDone(expected).stages[2].StagePending?;
    CallKeeps(s, AdvanceCall(Smooth(s)));
  }

  /** The first derived stage after one of its resources could not be rebuilt. */
  lemma RebuildFails(expected: Option<map<string, Fact>>, resource: string)
    ensures SessionHolds(DerivedStage(FactsDone(expected), 2, {resource}, {}))
    ensures Ref(2, resource) in FailedTargets(DerivedStage(FactsDone(expected), 2, {resource}, {}))
    ensures FirstRunnable(DerivedStage(FactsDone(expected), 2, {resource}, {}).stages, 0) == Some(2)
  {
    var s := FactsDone(expected);
    ObjectsNext(expected);
    assert !Runnable(s.stages, 0) && !Runnable(s.stages, 1);
    assert FirstRunnable(s.stages, 0) == FirstRunnable(s.stages, 1) == FirstRunnable(s.stages, 2) == Some(2);
    DerivedStageKeeps(s, 2, {resource}, {});
    var t := DerivedStage(s, 2, {resource}, {});
    assert t.targets[Ref(2, resource)].status.TargetFailed?;
    assert t.stages[2].StageFailed? && !Runnable(t.stages, 0) && !Runnable(t.stages, 1);
    assert FirstRunnable(t.stages, 0) == FirstRunnable(t.stages, 1) == FirstRunnable(t.stages, 2);
  }

  lemma FailingRebuild(expected: Option<map<string, Fact>>, resource: string)
    ensures ApplyCall(FactsDone(expected), AdvanceCall(Smooth(FactsDone(expected)).(resources := {resource}))).session ==
            DerivedStage(FactsDone(expected), 2, {resource}, {})
  {
    var s := FactsDone(expected);
    RebuildFails(expected, resource);
    assert !Runnable(s.stages, 0) && !Runnable(s.stages, 1);
    assert FirstRunnable(s.stages, 0) == FirstRunnable(s.stages, 1) == FirstRunnable(s.stages, 2) == Some(2);
    assert s.(status := Running) == s;
  }

  lemma RepeatedByAdvancing(s: Session, env: Env, resource: string)
    requires SessionHolds(s) && s.status.Running? && Ref(2, resource) in FailedTargets(s)
    requires FirstRunnable(s.stages, 0) == Some(2) && env.rebuilds && resource in env.good
    ensures Stuck(ApplyCall(s, AdvanceCall(env)).session)
  {
    StuckAfterIffSticks(s, AdvanceCall(env));
  }

  /** From a fresh restore, a rebuild that fails once and is then repeated by advancing gets it stuck. */
  lemma DerivedStuckIsReachable(expected: Option<map<string, Fact>>, resource: string) returns (calls: seq<Call>)
    ensures Stuck(RunCalls(NewSession(expected), calls))
  {
    var s1, s2 := DatabaseDone(expected), FactsDone(expected);
    var fails := AdvanceCall(Smooth(s2).(resources := {resource}));
    var succeeds := AdvanceCall(Smooth(s2).(good := {resource}));
    DatabaseFirst(expected, Smooth(s1));
    ObjectsNext(expected);
    RebuildFails(expected, resource);
    FailingRebuild(expected, resource);
    RepeatedByAdvancing(DerivedStage(s2, 2, {resource}, {}), succeeds.env, resource);
    calls := [AdvanceCall(Smooth(s1)), AdvanceCall(Smooth(s1)), fails, succeeds];
    CallsFour(NewSession(expected), calls);
  }

  lemma CallsFour(s: Session, calls: seq<Call>)
    requires |calls| == 4
    ensures RunCalls(s, calls) ==
      ApplyCall(ApplyCall(ApplyCall(ApplyCall(s, calls[0]).session, calls[1]).session, calls[2]).session, calls[3]).session
  {
    var s1 := ApplyCall(s, calls[0]).session;
    var s2 := ApplyCall(s1, calls[1]).session;
    var s3 := ApplyCall(s2, calls[2]).session;
    assert RunCalls(s3, calls[3..]) == RunCalls(ApplyCall(s3, calls[3]).session, calls[3..][1..]);
    assert RunCalls(s2, calls[2..]) == RunCalls(s3, calls[2..][1..]) && calls[2..][1..] == calls[3..];
    assert RunCalls(s1, calls[1..]) == RunCalls(s2, calls[1..][1..]) && calls[1..][1..] == calls[2..];
  }

  // ---------------------------------------------------------------- a run that blocks

  lemma OneSession(steps: seq<Step>, id: string, s: Session, call: Call, t: Session) returns (more: seq<Step>)
    requires Run(EMPTY, steps).sessions == map[id := s] && ApplyCall(s, call) == Advanced(t, false)
    ensures Run(EMPTY, more).sessions == map[id := t]
  {
    more := steps + [SessionStep(id, call)];
    RunSnoc(EMPTY, steps, SessionStep(id, call));
    assert map[id := s][id := t] == map[id := t];
  }

  lemma {:induction false} RunSnoc(sys: System, steps: seq<Step>, step: Step)
    ensures Run(sys, steps + [step]) == Apply(Run(sys, steps), step)
    decreases |steps|
  {
    if steps == [] {
      assert ([] + [step])[1..] == [];
    } else {
      assert (steps + [step])[1..] == steps[1..] + [step];
      RunSnoc(Apply(sys, steps[0]), steps[1..], step);
    }
  }

  /** The object restore of a session that finds an object unlisted: it fails, and the next call blocks the session. */
  lemma OrphanBlocks(expected: map<string, Fact>, env: Env, key: string)
    requires env.restores && key in env.actualAgain && key !in expected
    ensures !ApplyCall(DatabaseDone(Some(expected)), AdvanceCall(env)).reopened
    ensures !ApplyCall(ApplyCall(DatabaseDone(Some(expected)), AdvanceCall(env)).session, AdvanceCall(env)).reopened
    ensures ApplyCall(ApplyCall(DatabaseDone(Some(expected)), AdvanceCall(env)).session, AdvanceCall(env)).session.status.Blocked?
  {
    var s := DatabaseDone(Some(expected));
    DatabaseFirst(Some(expected), env);
    assert !Runnable(s.stages, 0) && Runnable(s.stages, 1);
    assert FirstRunnable(s.stages, 0) == FirstRunnable(s.stages, 1) == Some(1);
    assert NewOrphan(s.repairs, s.expected, env.actualAgain);
    ValidationSticks(s.repairs, s.expected, env.actualAgain);
    var t := FactStage(s.(status := Running), 1, env.actualAgain);
    assert t.stages[1].StageFailed? && t.stages[2].StagePending?;
    assert ApplyCall(s, AdvanceCall(env)).session == t;
    assert !Runnable(t.stages, 0) && Runnable(t.stages, 1);
    assert FirstRunnable(t.stages, 0) == FirstRunnable(t.stages, 1) == Some(1);
    ValidationSticks(t.repairs, t.expected, env.actualAgain);
  }

  lemma BlockedRun(id: string, expected: Option<map<string, Fact>>, call: Call, s: Session, t: Session, u: Session) returns (steps: seq<Step>)
    requires ApplyCall(NewSession(expected), call) == Advanced(s, false)
    requires ApplyCall(s, call) == Advanced(t, false) && ApplyCall(t, call) == Advanced(u, false)
    ensures Run(EMPTY, steps).sessions == map[id := u]
  {
    steps := [StartStep(id, true, expected)];
    assert steps[1..] == [];
    steps := OneSession(steps, id, NewSession(expected), call, s);
    steps := OneSession(steps, id, s, call, t);
    steps := OneSession(steps, id, t, call, u);
  }

  /** A run after which the inner guard would admit a second restore beside a blocked one. */
  lemma SecondRestoreIsReachable(id: string, other: string) returns (steps: seq<Step>)
    requires id != other
    ensures InnerGuard(Run(EMPTY, steps)) && other !in Run(EMPTY, steps).sessions
    ensures !GateHolds(InnerStart(Run(EMPTY, steps), other, true, None))
  {
    var env := Env(map[], map["orphan" := Fact(0, "")], true, true, {}, {}, false);
    DatabaseFirst(Some(map[]), env);
    OrphanBlocks(map[], env, "orphan");
    var t := ApplyCall(DatabaseDone(Some(map[])), AdvanceCall(env)).session;
    var u := ApplyCall(t, AdvanceCall(env)).session;
    steps := BlockedRun(id, Some(map[]), AdvanceCall(env), DatabaseDone(Some(map[])), t, u);
    BlockedAlone(steps, id, u, other);
  }

  lemma BlockedAlone(steps: seq<Step>, id: string, u: Session, other: string)
    requires id != other && Run(EMPTY, steps).sessions == map[id := u] && u.status.Blocked?
    ensures InnerGuard(Run(EMPTY, steps)) && other !in Run(EMPTY, steps).sessions
    ensures !GateHolds(InnerStart(Run(EMPTY, steps), other, true, None))
  {
    assert Run(EMPTY, steps).sessions[id].status.Blocked?;
    InnerGuardMissesBlocked(steps, other, None);
  }
}

/** What every run of restores keeps. */
module RestoreLaws {
  import opened Options
  import opened Restore

  // ---------------------------------------------------------------- the invariant

  predicate Last(calls: seq<bool>) {
    calls != [] && calls[|calls| - 1]
  }

  /** One rebuild call per attempt and per epoch; the first success is the last call. */
  predicate TargetHolds(t: Target) {
    && t.attempt == t.epoch == |t.calls|
    && (forall i :: 0 <= i < |t.calls| - 1 ==> !t.calls[i])
    && t.status == (if t.calls == [] then TargetPending else if Last(t.calls) then TargetSucceeded else TargetFailed)
  }

  /** Seven stages: a succeeded prefix, then whatever is in hand, then pending ones. */
  predicate StagesHold(stages: Stages) {
    && (forall k :: 0 <= k < STAGES ==> !stages[k].StageRunning?)
    && (forall j, k :: 0 <= j < k < STAGES && !stages[k].StagePending? ==> stages[j].StageSucceeded?)
    && !stages[0].StageFailed?
  }

  function RestoredOf(stages: Stages): seq<nat>
  {
    if stages[0].StagePending? then [] else if stages[1].StagePending? then [0] else [0, 1]
  }

  /** A committed target has been called, in a derived stage that has run; a succeeded stage has only succeeded ones. */
  predicate TargetAt(stages: Stages, r: Ref, t: Target)
  {
    && FACT_STAGES <= r.stage < STAGES && !stages[r.stage].StagePending?
    && TargetHolds(t) && !t.status.TargetPending?
    && (stages[r.stage].StageSucceeded? ==> t.status.TargetSucceeded?)
  }

  predicate TargetsHold(stages: Stages, targets: map<Ref, Target>)
  {
    forall r | r in targets :: TargetAt(stages, r, targets[r])
  }

  /** A failed target has an open repair; a repair of a derived stage belongs to a target. */
  predicate RepairsHold(targets: map<Ref, Target>, repairs: map<Ref, Repair>) {
    && (forall r | r in targets :: targets[r].status.TargetFailed? ==> r in repairs && repairs[r].Open?)
    && (forall r | r in repairs :: if r.stage == OBJECT_STORE then true else r in targets)
  }

  predicate SessionHolds(s: Session) {
    && StagesHold(s.stages)
    && s.restored == RestoredOf(s.stages)
    && TargetsHold(s.stages, s.targets)
    && RepairsHold(s.targets, s.repairs)
    && (s.status.Completed? ==> AllSucceeded(s.stages) && !HasOpen(s.repairs))
    && (s.expected.None? ==> forall r | r in s.repairs :: r.stage != OBJECT_STORE)
  }

  // ---------------------------------------------------------------- what one call may change

  /** Nothing that succeeded is ever done again or taken back. */
  predicate TargetGrows(t: Target, u: Target) {
    && t.calls <= u.calls
    && (t.status.TargetSucceeded? ==> u == t)
  }

  predicate TargetsGrow(targets: map<Ref, Target>, later: map<Ref, Target>) {
    forall r | r in targets :: r in later && TargetGrows(targets[r], later[r])
  }

  /** Rows stay, and a resolved one is never reopened. */
  predicate RepairsGrow(repairs: map<Ref, Repair>, later: map<Ref, Repair>) {
    forall r | r in repairs :: r in later && (repairs[r].Resolved? ==> later[r].Resolved?)
  }

  predicate SessionGrows(s: Session, t: Session) {
    && (forall k :: 0 <= k < STAGES && s.stages[k].StageSucceeded? ==> t.stages[k].StageSucceeded?)
    && TargetsGrow(s.targets, t.targets)
    && RepairsGrow(s.repairs, t.repairs)
    && s.restored <= t.restored && s.expected == t.expected
    && (s.status.Completed? ==> t == s)
  }

  lemma FactStageKeeps(s: Session, k: nat, actual: map<string, Fact>)
    requires SessionHolds(s) && k < FACT_STAGES && FirstRunnable(s.stages, 0) == Some(k) && s.stages[k].StagePending?
    requires !s.status.Completed?
    ensures SessionHolds(FactStage(s, k, actual)) && SessionGrows(s, FactStage(s, k, actual))
  {
    StageDone(s.stages, k, FactStage(s, k, actual).stages[k]);
  }

  lemma RebuildHolds(t: Target, ok: bool)
    requires TargetHolds(t) && Due(t)
    ensures TargetHolds(Rebuilt(t, ok)) && TargetGrows(t, Rebuilt(t, ok))
  {}

  lemma TargetAfter(targets: map<Ref, Target>, stages: Stages, k: nat, resources: set<string>, good: set<string>, status: StageStatus, r: Ref)
    requires TargetsHold(stages, targets) && FACT_STAGES <= k < STAGES && !status.StagePending?
    requires r in Upserted(targets, k, resources)
    requires status.StageSucceeded? ==> !AnyFailed(Executed(Upserted(targets, k, resources), k, good), k)
    ensures TargetAt(stages[k := status], r, Executed(Upserted(targets, k, resources), k, good)[r])
  {
    var t := Upserted(targets, k, resources)[r];
    assert r in targets ==> TargetAt(stages, r, t);
    if Due(t) { RebuildHolds(t, r.resource in good); }
  }

  /** After a derived stage ran, each of its targets has succeeded or failed. */
  lemma TargetsAfter(targets: map<Ref, Target>, stages: Stages, k: nat, resources: set<string>, good: set<string>, status: StageStatus)
    requires TargetsHold(stages, targets) && FACT_STAGES <= k < STAGES && !status.StagePending?
    requires status.StageSucceeded? ==> !AnyFailed(Executed(Upserted(targets, k, resources), k, good), k)
    ensures TargetsHold(stages[k := status], Executed(Upserted(targets, k, resources), k, good))
    ensures TargetsGrow(targets, Executed(Upserted(targets, k, resources), k, good))
  {
    var listed := Upserted(targets, k, resources);
    var later := Executed(listed, k, good);
    forall r | r in later ensures TargetAt(stages[k := status], r, later[r]) {
      TargetAfter(targets, stages, k, resources, good, status, r);
    }
    forall r | r in targets ensures r in later && TargetGrows(targets[r], later[r]) {
      assert TargetAt(stages, r, targets[r]) && listed[r] == targets[r];
    }
  }

  lemma StageDone(stages: Stages, k: nat, status: StageStatus)
    requires StagesHold(stages) && FirstRunnable(stages, 0) == Some(k)
    requires status.StageSucceeded? || (status.StageFailed? && k > 0)
    ensures StagesHold(stages[k := status])
    ensures forall j :: 0 <= j < k ==> stages[j].StageSucceeded?
  {
    forall j | 0 <= j < k ensures stages[j].StageSucceeded? {
      assert !Runnable(stages, j);
    }
  }

  lemma RepairsAfter(targets: map<Ref, Target>, repairs: map<Ref, Repair>, k: nat, resources: set<string>, good: set<string>)
    requires RepairsHold(targets, repairs)
    requires forall r | r in targets :: !targets[r].status.TargetPending? && !targets[r].status.TargetRunning?
    requires k != OBJECT_STORE
    ensures var listed := Upserted(targets, k, resources);
      var later := Opened(repairs, FailedNow(listed, k, good));
      RepairsHold(Executed(listed, k, good), later) && RepairsGrow(repairs, later)
  {
    var listed := Upserted(targets, k, resources);
    var later := Opened(repairs, FailedNow(listed, k, good));
    var executed := Executed(listed, k, good);
    forall r | r in executed && executed[r].status.TargetFailed? ensures r in later && later[r].Open? {
      assert r in repairs ==> r in targets || r.stage == OBJECT_STORE;
    }
  }

  /** Stage `k` may get this status together with these rows. */
  predicate Replaceable(s: Session, k: nat, status: StageStatus, targets: map<Ref, Target>, repairs: map<Ref, Repair>)
    requires k < STAGES
  {
    && !status.StagePending? && !s.stages[k].StageSucceeded? && StagesHold(s.stages[k := status])
    && TargetsHold(s.stages[k := status], targets) && TargetsGrow(s.targets, targets)
    && RepairsHold(targets, repairs) && RepairsGrow(s.repairs, repairs)
    && (forall r | r in repairs && r.stage == OBJECT_STORE :: r in s.repairs)
  }

  lemma StageReplaced(s: Session, k: nat, status: StageStatus, targets: map<Ref, Target>, repairs: map<Ref, Repair>)
    requires SessionHolds(s) && !s.status.Completed? && FACT_STAGES <= k < STAGES
    requires Replaceable(s, k, status, targets, repairs)
    ensures var t := s.(stages := s.stages[k := status], targets := targets, repairs := repairs);
      SessionHolds(t) && SessionGrows(s, t)
  {
    assert RestoredOf(s.stages[k := status]) == RestoredOf(s.stages);
  }

  lemma DerivedStageFits(s: Session, k: nat, resources: set<string>, good: set<string>, status: StageStatus)
    requires SessionHolds(s) && FACT_STAGES <= k < STAGES && FirstRunnable(s.stages, 0) == Some(k)
    requires status == if AnyFailed(Executed(Upserted(s.targets, k, resources), k, good), k) then StageFailed else StageSucceeded
    ensures var listed := Upserted(s.targets, k, resources);
      Replaceable(s, k, status, Executed(listed, k, good), Opened(s.repairs, FailedNow(listed, k, good)))
  {
    StageDone(s.stages, k, status);
    TargetsAfter(s.targets, s.stages, k, resources, good, status);
    RepairsAfter(s.targets, s.repairs, k, resources, good);
  }

  lemma DerivedStageKeeps(s: Session, k: nat, resources: set<string>, good: set<string>)
    requires SessionHolds(s) && FACT_STAGES <= k < STAGES && FirstRunnable(s.stages, 0) == Some(k)
    requires !s.status.Completed?
    ensures SessionHolds(DerivedStage(s, k, resources, good)) && SessionGrows(s, DerivedStage(s, k, resources, good))
  {
    var listed := Upserted(s.targets, k, resources);
    var targets := Executed(listed, k, good);
    var status := if AnyFailed(targets, k) then StageFailed else StageSucceeded;
    DerivedStageFits(s, k, resources, good, status);
    StageReplaced(s, k, status, targets, Opened(s.repairs, FailedNow(listed, k, good)));
  }

  lemma FactRetryKeeps(s: Session, env: Env, k: nat)
    requires SessionHolds(s) && k < FACT_STAGES && FirstRunnable(s.stages, 0) == Some(k) && s.stages[k].StageFailed?
    requires !s.status.Completed?
    ensures var t := AdvanceStage(s, env).value.session; SessionHolds(t) && SessionGrows(s, t)
    ensures !AdvanceStage(s, env).value.reopened && Active(AdvanceStage(s, env).value.session)
  {
    assert k == 1;
  }

  lemma AdvanceStageKeeps(s: Session, env: Env)
    requires SessionHolds(s) && !s.status.Completed? && AdvanceStage(s, env).Some?
    ensures var on := AdvanceStage(s, env).value;
      SessionHolds(on.session) && SessionGrows(s, on.session) && on.reopened == on.session.status.Completed?
  {
    var runnable := FirstRunnable(s.stages, 0);
    if runnable.None? {
      forall k | 0 <= k < STAGES ensures s.stages[k].StageSucceeded? {
        assert !Runnable(s.stages, k);
      }
    } else if s.stages[runnable.value].StageFailed? && runnable.value < FACT_STAGES {
      FactRetryKeeps(s, env, runnable.value);
    } else if runnable.value < FACT_STAGES {
      FactStageKeeps(s.(status := Running), runnable.value, env.actualAgain);
    } else {
      DerivedStageKeeps(s.(status := Running), runnable.value, env.resources, env.good);
    }
  }

  lemma ResumedKeeps(s: Session, env: Env)
    requires SessionHolds(s) && !s.status.Completed?
    ensures SessionHolds(Resumed(s, env)) && SessionGrows(s, Resumed(s, env)) && !Resumed(s, env).status.Completed?
  {
  }

  lemma GrowsTrans(a: Session, b: Session, c: Session)
    requires SessionGrows(a, b) && SessionGrows(b, c)
    ensures SessionGrows(a, c)
  {
    forall r | r in a.targets ensures r in c.targets && TargetGrows(a.targets[r], c.targets[r]) {
      assert r in b.targets;
    }
    forall r | r in a.repairs ensures r in c.repairs && (a.repairs[r].Resolved? ==> c.repairs[r].Resolved?) {
      assert r in b.repairs;
    }
  }

  lemma AdvanceKeeps(s: Session, env: Env)
    requires SessionHolds(s)
    ensures SessionHolds(Advance(s, env).session) && SessionGrows(s, Advance(s, env).session)
    ensures Advance(s, env).reopened <==> !s.status.Completed? && Advance(s, env).session.status.Completed?
  {
    if !s.status.Completed? {
      var from := Resumed(s, env);
      ResumedKeeps(s, env);
      if !from.status.Blocked? && AdvanceStage(from, env).Some? {
        AdvanceStageKeeps(from, env);
        GrowsTrans(s, from, AdvanceStage(from, env).value.session);
      }
    }
  }

  lemma RetryTargetKeeps(s: Session, r: Ref, rebuilds: bool, ok: bool)
    requires SessionHolds(s)
    ensures SessionHolds(RetryTarget(s, r, rebuilds, ok)) && SessionGrows(s, RetryTarget(s, r, rebuilds, ok))
    ensures RetryTarget(s, r, rebuilds, ok).status == s.status
  {
    if r in s.targets && !s.targets[r].status.TargetSucceeded? && rebuilds {
      RebuildHolds(s.targets[r], ok);
      assert s.repairs[r].Open?;
    }
  }

  lemma CallKeeps(s: Session, call: Call)
    requires SessionHolds(s)
    ensures SessionHolds(ApplyCall(s, call).session) && SessionGrows(s, ApplyCall(s, call).session)
    ensures ApplyCall(s, call).reopened <==> !s.status.Completed? && ApplyCall(s, call).session.status.Completed?
  {
    match call
    case AdvanceCall(env) => AdvanceKeeps(s, env);
    case RetryTargetCall(r, rebuilds, ok) => RetryTargetKeeps(s, r, rebuilds, ok);
    case RetryRepairCall(r, actual) =>
  }
}

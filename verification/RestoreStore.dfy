/**
 The restore service as it changes its rows, one method per call of the source.
 A call whose ports raise writes nothing.
*/
module RestoreStore {
  import opened Options
  import opened Restore
  import opened RestoreTheorems

  function MismatchedIn(expected: map<string, Fact>, actual: map<string, Fact>, keys: set<string>): set<Ref> {
    set key | key in keys && !Agrees(expected, actual, key) :: Ref(OBJECT_STORE, key)
  }

  function ResolvedIn(repairs: map<Ref, Repair>, keys: set<string>): map<Ref, Repair> {
    map r | r in repairs :: if r.stage == OBJECT_STORE && r.resource in keys then Resolved else repairs[r]
  }

  /** `_open_repair_target`: an existing row, open or resolved, is left alone. */
  method OpenRepair(repairs: map<Ref, Repair>, r: Ref) returns (later: map<Ref, Repair>)
    ensures later == Opened(repairs, {r})
  {
    later := if r in repairs then repairs else repairs[r := Open];
  }

  lemma OpenedTwice(repairs: map<Ref, Repair>, a: set<Ref>, b: set<Ref>)
    ensures Opened(Opened(repairs, a), b) == Opened(repairs, a + b)
  {}

  method OpenMismatches(repairs: map<Ref, Repair>, expected: map<string, Fact>, actual: map<string, Fact>, keys: set<string>) returns (later: map<Ref, Repair>)
    ensures later == Opened(repairs, MismatchedIn(expected, actual, keys))
  {
    later := repairs;
    var todo := keys;
    ghost var done: set<string> := {};
    while todo != {}
      invariant keys == todo + done && todo !! done
      invariant later == Opened(repairs, MismatchedIn(expected, actual, done))
    {
      var key :| key in todo;
      if !Agrees(expected, actual, key) {
        later := OpenRepair(later, Ref(OBJECT_STORE, key));
        OpenedTwice(repairs, MismatchedIn(expected, actual, done), {Ref(OBJECT_STORE, key)});
        assert MismatchedIn(expected, actual, done + {key}) == MismatchedIn(expected, actual, done) + {Ref(OBJECT_STORE, key)};
      } else {
        assert MismatchedIn(expected, actual, done + {key}) == MismatchedIn(expected, actual, done);
      }
      todo, done := todo - {key}, done + {key};
    }
    assert done == keys;
  }

  /** `_resolve_repair_target` for each consistent key that has a row. */
  method ResolveConsistent(repairs: map<Ref, Repair>, keys: set<string>) returns (later: map<Ref, Repair>)
    ensures later == ResolvedIn(repairs, keys)
  {
    later := repairs;
    var todo := keys;
    ghost var done: set<string> := {};
    while todo != {}
      invariant keys == todo + done && todo !! done
      invariant later == ResolvedIn(repairs, done)
    {
      var key :| key in todo;
      if Ref(OBJECT_STORE, key) in later {
        later := later[Ref(OBJECT_STORE, key) := Resolved];
      }
      todo, done := todo - {key}, done + {key};
    }
    assert done == keys;
  }

  lemma ValidateIsOpenThenResolve(repairs: map<Ref, Repair>, expected: map<string, Fact>, actual: map<string, Fact>)
    ensures var both := Opened(Opened(repairs, MismatchedIn(expected, actual, expected.Keys)),
                               MismatchedIn(expected, actual, actual.Keys - expected.Keys));
      ResolvedIn(both, set key | key in expected && Agrees(expected, actual, key)) == ValidateFacts(repairs, Some(expected), actual)
  {
    var a, b := MismatchedIn(expected, actual, expected.Keys), MismatchedIn(expected, actual, actual.Keys - expected.Keys);
    assert a + b == Mismatched(expected, actual);
    OpenedTwice(repairs, a, b);
    ResolveOpened(repairs, expected, actual);
  }

  lemma ResolveOpened(repairs: map<Ref, Repair>, expected: map<string, Fact>, actual: map<string, Fact>)
    ensures ResolvedIn(Opened(repairs, Mismatched(expected, actual)), set key | key in expected && Agrees(expected, actual, key)) ==
            ValidateFacts(repairs, Some(expected), actual)
  {}

  /** `_validate_facts`: the expected keys, then the orphans, then the keys that agree. */
  method Validate(repairs: map<Ref, Repair>, expected: Option<map<string, Fact>>, actual: map<string, Fact>) returns (later: map<Ref, Repair>)
    ensures later == ValidateFacts(repairs, expected, actual)
  {
    later := repairs;
    if expected.Some? {
      later := OpenMismatches(later, expected.value, actual, expected.value.Keys);
      later := OpenMismatches(later, expected.value, actual, actual.Keys - expected.value.Keys);
      var consistent := set key | key in expected.value && Agrees(expected.value, actual, key);
      later := ResolveConsistent(later, consistent);
      ValidateIsOpenThenResolve(repairs, expected.value, actual);
    }
  }

  method UpsertTargets(targets: map<Ref, Target>, stage: nat, resources: set<string>) returns (later: map<Ref, Target>)
    ensures later == Upserted(targets, stage, resources)
  {
    later := targets;
    var todo := resources;
    ghost var done: set<string> := {};
    while todo != {}
      invariant resources == todo + done && todo !! done
      invariant later == Upserted(targets, stage, done)
    {
      var resource :| resource in todo;
      if Ref(stage, resource) !in later {
        later := later[Ref(stage, resource) := Target(TargetPending, 0, 0, [])];
      }
      todo, done := todo - {resource}, done + {resource};
    }
    assert done == resources;
  }

  function RebuiltIn(targets: map<Ref, Target>, refs: set<Ref>, good: set<string>): map<Ref, Target> {
    map r | r in targets :: if r in refs then Rebuilt(targets[r], r.resource in good) else targets[r]
  }

  function BadIn(refs: set<Ref>, good: set<string>): set<Ref> {
    set r | r in refs && r.resource !in good
  }

  /** `_execute_targets`: each due target is called once; a failure opens its repair. */
  method ExecuteTargets(targets: map<Ref, Target>, repairs: map<Ref, Repair>, stage: nat, good: set<string>)
      returns (rows: map<Ref, Target>, queue: map<Ref, Repair>)
    ensures rows == Executed(targets, stage, good)
    ensures queue == Opened(repairs, FailedNow(targets, stage, good))
  {
    var due := set r | r in targets && r.stage == stage && Due(targets[r]);
    rows, queue := targets, repairs;
    var todo := due;
    ghost var done: set<Ref> := {};
    while todo != {}
      invariant due == todo + done && todo !! done
      invariant rows == RebuiltIn(targets, done, good)
      invariant queue == Opened(repairs, BadIn(done, good))
    {
      var r :| r in todo;
      rows := rows[r := Rebuilt(rows[r], r.resource in good)];
      if r.resource !in good {
        queue := OpenRepair(queue, r);
        OpenedTwice(repairs, BadIn(done, good), {r});
        assert BadIn(done + {r}, good) == BadIn(done, good) + {r};
      } else {
        assert BadIn(done + {r}, good) == BadIn(done, good);
      }
      todo, done := todo - {r}, done + {r};
    }
    assert done == due;
    assert BadIn(due, good) == FailedNow(targets, stage, good);
  }

  /** The scan of `advance_restore` for the stage to run. */
  method FindRunnable(stages: Stages) returns (runnable: Option<nat>)
    ensures runnable == FirstRunnable(stages, 0)
  {
    var k := 0;
    while k < STAGES
      invariant 0 <= k <= STAGES
      invariant FirstRunnable(stages, 0) == FirstRunnable(stages, k)
    {
      if Runnable(stages, k) {
        return Some(k);
      }
      k := k + 1;
    }
    return None;
  }

  /** One stage of a session value; None when a port raised. */
  method RunStage(s: Session, k: nat, env: Env) returns (after: Option<Session>)
    requires k < STAGES
    ensures after == ExecuteStage(s, k, env)
  {
    if k < FACT_STAGES {
      if !env.restores {
        return None;
      }
      var repairs := s.repairs;
      if k == OBJECT_STORE {
        repairs := Validate(repairs, s.expected, env.actualAgain);
      }
      var failed := k == OBJECT_STORE && HasOpen(repairs);
      return Some(s.(stages := s.stages[k := if failed then StageFailed else StageSucceeded],
                     repairs := repairs, restored := s.restored + [k]));
    }
    if !env.rebuilds {
      return None;
    }
    var targets := UpsertTargets(s.targets, k, env.resources);
    var rows, queue := ExecuteTargets(targets, s.repairs, k, env.good);
    return Some(s.(stages := s.stages[k := if AnyFailed(rows, k) then StageFailed else StageSucceeded],
                   targets := rows, repairs := queue));
  }

  class RestoreService {
    var sessions: map<string, Session>
    var gate: Option<string>

    ghost function View(): System
      reads this
    {
      System(sessions, gate)
    }

    constructor ()
      ensures View() == System(map[], None)
    {
      sessions, gate := map[], None;
    }

    /** `_execute_start_restore` and `start_restore`. */
    method StartRestore(id: string, complete: bool, expected: Option<map<string, Fact>>) returns (started: bool)
      requires id !in sessions
      modifies this
      ensures View() == Apply(old(View()), StartStep(id, complete, expected))
      ensures started <==> complete && OuterGuard(old(View()))
    {
      if exists other | other in sessions :: Active(sessions[other]) {
        return false;
      }
      if !complete {
        return false;
      }
      sessions := sessions[id := NewSession(expected)];
      started := true;
      gate := Some(id);
    }

    /** `_run_post_gate`. */
    method RunPostGate(id: string, s: Session, blocking: bool)
      modifies this
      ensures sessions == old(sessions)[id := PostGate(s, blocking).session]
      ensures gate == if PostGate(s, blocking).reopened then None else old(gate)
    {
      if blocking || HasOpen(s.repairs) {
        sessions := sessions[id := s.(status := Blocked)];
      } else {
        gate := None;
        sessions := sessions[id := s.(status := Completed)];
      }
    }

    /** The part of `advance_restore` after a blocked session was found free to go on. */
    method RunNextStage(id: string, s: Session, env: Env)
      requires id in sessions
      modifies this
      ensures var on := AdvanceStage(s, env);
        && sessions == (if on.None? then old(sessions) else old(sessions)[id := on.value.session])
        && gate == if on.Some? && on.value.reopened then None else old(gate)
    {
      var runnable := FindRunnable(s.stages);
      if runnable.None? {
        if AllSucceeded(s.stages) {
          RunPostGate(id, s, env.blocking);
        } else {
          sessions := sessions[id := s];
        }
        return;
      }
      var k := runnable.value;
      if s.stages[k].StageFailed? && k < FACT_STAGES {
        var repairs := Validate(s.repairs, s.expected, env.actualAgain);
        sessions := sessions[id := if HasOpen(repairs) then s.(repairs := repairs, status := Blocked)
                                   else s.(repairs := repairs, stages := s.stages[k := StageSucceeded])];
        return;
      }
      var executed := RunStage(s.(status := Running), k, env);
      if executed.Some? {
        if AllSucceeded(executed.value.stages) {
          RunPostGate(id, executed.value, env.blocking);
        } else {
          sessions := sessions[id := executed.value];
        }
      }
    }

    method AdvanceRestore(id: string, env: Env)
      requires id in sessions
      modifies this
      ensures View() == Apply(old(View()), SessionStep(id, AdvanceCall(env)))
    {
      var s := sessions[id];
      if s.status.Completed? {
        return;
      }
      if s.status.Blocked? {
        var repairs := Validate(s.repairs, s.expected, env.actual);
        if HasOpen(repairs) {
          sessions := sessions[id := s.(repairs := repairs)];
          return;
        }
        s := s.(repairs := repairs, status := Running);
      }
      assert s == Resumed(sessions[id], env);
      RunNextStage(id, s, env);
    }

    method RetryOneTarget(id: string, r: Ref, rebuilds: bool, ok: bool)
      requires id in sessions
      modifies this
      ensures View() == Apply(old(View()), SessionStep(id, RetryTargetCall(r, rebuilds, ok)))
    {
      var s := sessions[id];
      if r !in s.targets || s.targets[r].status.TargetSucceeded? || !rebuilds {
        return;
      }
      var repairs := s.repairs;
      if !ok {
        repairs := OpenRepair(repairs, r);
      } else if r in repairs {
        repairs := repairs[r := Resolved];
      }
      sessions := sessions[id := s.(targets := s.targets[r := Rebuilt(s.targets[r], ok)], repairs := repairs)];
    }

    method RetryRepairTarget(id: string, r: Ref, actual: map<string, Fact>)
      requires id in sessions
      modifies this
      ensures View() == Apply(old(View()), SessionStep(id, RetryRepairCall(r, actual)))
    {
      var s := sessions[id];
      if r !in s.repairs || s.repairs[r].Resolved? {
        return;
      }
      var repairs := Validate(s.repairs, s.expected, actual);
      sessions := sessions[id := s.(repairs := repairs)];
    }

    /** Whatever the calls, in whatever order: the gate and every session stay lawful, and nothing achieved is undone. */
    ghost predicate Valid()
      reads this
    {
      SystemHolds(View())
    }

    method Perform(step: Step)
      requires Valid()
      modifies this
      ensures Valid() && View() == Apply(old(View()), step) && SystemGrows(old(View()), View())
    {
      StepKeeps(View(), step);
      match step
      case StartStep(id, complete, expected) =>
        if id !in sessions {
          var started := StartRestore(id, complete, expected);
        }
      case SessionStep(id, call) =>
        if id in sessions {
          PerformCall(id, call);
        }
    }

    method PerformCall(id: string, call: Call)
      requires id in sessions
      modifies this
      ensures View() == Apply(old(View()), SessionStep(id, call))
    {
      match call
      case AdvanceCall(env) => AdvanceRestore(id, env);
      case RetryTargetCall(r, rebuilds, ok) => RetryOneTarget(id, r, rebuilds, ok);
      case RetryRepairCall(r, actual) => RetryRepairTarget(id, r, actual);
    }

    method PerformAll(steps: seq<Step>)
      requires Valid()
      modifies this
      ensures Valid() && View() == Run(old(View()), steps) && SystemGrows(old(View()), View())
    {
      RunKeeps(View(), steps);
      var i := 0;
      while i < |steps|
        invariant 0 <= i <= |steps| && Valid()
        invariant Run(View(), steps[i..]) == Run(old(View()), steps)
      {
        assert steps[i..][1..] == steps[i + 1..];
        Perform(steps[i]);
        i := i + 1;
      }
    }
  }
}

/**
 Executing a backup behind the write gate (app/backup/worker.py:405-623;
 app/backup/service.py:150-210, 1157-1176): take the gate, wait for admitted
 writes, close it, take the three snapshots in order, release it.

 One worker holds the execute lease; it may crash between any two transactions
 or provider calls. Another task opens gates it finds stale.
*/
module WriteGate {
  import opened Options

  type Id = string
  datatype GateState = Open | Closing | Closed
  datatype Gate = Gate(state: GateState, holder: Option<Id>)
  datatype SetStatus = Creating | Complete | FailedSet
  datatype ComponentStatus = Pending | Succeeded | Failed

  /** `window` is which holding of the gate the recorded reference was taken in. */
  datatype Component = Component(status: ComponentStatus, reference: Option<string>, window: nat)
  type Components = c: seq<Component> | |c| == 3 witness seq(3, i => Component(Pending, None, 0))
  datatype BackupSet = BackupSet(status: SetStatus, components: Components)

  /** Where the executor stands in `_execute_backup`. `done` is what it read as already succeeded. */
  datatype Executor =
    | Idle
    | Checked(id: Id)
    | Acquiring(id: Id)
    | Draining(id: Id)
    | ClosingGate(id: Id)
    | Listing(id: Id)
    | Stepping(id: Id, done: set<nat>, k: nat)
    | Recording(id: Id, done: set<nat>, k: nat, reference: string)
    | Failing(id: Id, k: nat)
    | Releasing(id: Id)

  /** A call of a snapshot provider, with the gate as it was at that moment. */
  datatype ProviderCall = ProviderCall(id: Id, k: nat, gate: Gate)

  /** `windows` counts the times the gate was taken; `split` are the sets it was opened on while half done. */
  datatype State = State(gate: Gate, sets: map<Id, BackupSet>, executor: Executor, calls: seq<ProviderCall>, windows: nat, split: set<Id>)

  datatype Recorded = Committed | RaisedBefore | RaisedAfter

  /** One transaction or provider call of the executor, with what it met. */
  datatype Move =
    | Proceed
    | DrainTimeout
    | Raise
    | Snapshot(reference: Option<string>)
    | Record(recorded: Recorded)
    | MarkFailed(committed: bool)
    | Crash

  datatype Step = CreateStep(id: Id) | BeginStep(id: Id) | RecoverStep | MoveStep(move: Move)

  const PENDING: Component := Component(Pending, None, 0)
  const NEW_SET: BackupSet := BackupSet(Creating, [PENDING, PENDING, PENDING])
  const START: State := State(Gate(Open, None), map[], Idle, [], 0, {})

  predicate AllSucceeded(c: Components) {
    forall k :: 0 <= k < 3 ==> c[k].status.Succeeded?
  }

  predicate AnyRecorded(c: Components) {
    exists k :: 0 <= k < 3 && c[k].reference.Some?
  }

  function SucceededKinds(c: Components): set<nat> {
    set k: nat | k < 3 && c[k].status.Succeeded?
  }

  function FirstUnsucceeded(c: Components): nat {
    if !c[0].status.Succeeded? then 0 else if !c[1].status.Succeeded? then 1 else if !c[2].status.Succeeded? then 2 else 0
  }

  predicate IsCreating(s: State, id: Id) {
    id in s.sets && s.sets[id].status.Creating?
  }

  // ---------------------------------------------------------------- transitions

  function OpenGate(s: State): State {
    var half := s.gate.holder.Some? && IsCreating(s, s.gate.holder.value) && AnyRecorded(s.sets[s.gate.holder.value].components);
    s.(gate := Gate(Open, None), split := if half then s.split + {s.gate.holder.value} else s.split)
  }

  /** `_recover_stale_gate`: only a gate whose set is gone or no longer being created. */
  function Recover(s: State): State {
    if s.gate.state.Open? || (s.gate.holder.Some? && IsCreating(s, s.gate.holder.value)) then s else OpenGate(s)
  }

  /** The gate row is read, and taken only if it was open; a gate this set holds is adopted. */
  function ReadGate(s: State, id: Id): State {
    s.(executor := if s.gate.state.Open? then Acquiring(id) else if s.gate.holder == Some(id) then Draining(id) else Idle)
  }

  function Acquire(s: State, id: Id): State {
    if s.gate.state.Open? then s.(gate := Gate(Closing, Some(id)), windows := s.windows + 1, executor := Draining(id))
    else s.(executor := Idle)
  }

  /** `_close_gate` matches on holder and state, and goes on either way. */
  function CloseGate(s: State, id: Id): State {
    s.(gate := if s.gate == Gate(Closing, Some(id)) then Gate(Closed, Some(id)) else s.gate, executor := Listing(id))
  }

  function ReleaseGate(s: State, id: Id): State {
    (if s.gate.holder == Some(id) && !s.gate.state.Open? then OpenGate(s) else s).(executor := Idle)
  }

  /** `complete_snapshot_component` and `record_manifest_objects`: the third success completes the set. */
  function WithComponent(b: BackupSet, k: nat, reference: string, window: nat): BackupSet
    requires k < 3
  {
    var components: Components := b.components[k := Component(Succeeded, Some(reference), window)];
    BackupSet(if AllSucceeded(components) then Complete else b.status, components)
  }

  /** `fail_component`: the component and the whole set; a recorded reference stays in its row. */
  function WithFailure(b: BackupSet, k: nat): BackupSet
    requires k < 3
  {
    BackupSet(FailedSet, b.components[k := b.components[k].(status := Failed)])
  }

  /** A component of the running backup, in order; succeeded ones are passed over. */
  function SnapshotNext(s: State, id: Id, done: set<nat>, k: nat, reference: Option<string>): State {
    if k >= 3 then s.(executor := Releasing(id))
    else if k in done then s.(executor := Stepping(id, done, k + 1))
    else s.(calls := s.calls + [ProviderCall(id, k, s.gate)],
            executor := if reference.Some? then Recording(id, done, k, reference.value) else Failing(id, k))
  }

  function RecordReference(s: State, id: Id, done: set<nat>, k: nat, reference: string, recorded: Recorded): State {
    if k >= 3 || id !in s.sets || recorded.RaisedBefore? then s.(executor := Failing(id, k))
    else s.(sets := s.sets[id := WithComponent(s.sets[id], k, reference, s.windows)],
            executor := if recorded.Committed? then Stepping(id, done, k + 1) else Failing(id, k))
  }

  function Advance(s: State, move: Move): State {
    match s.executor
    case Idle => s
    case Checked(id) => if move.Proceed? then ReadGate(s, id) else s
    case Acquiring(id) => if move.Proceed? then Acquire(s, id) else s
    case Draining(id) =>
      if move.Proceed? then s.(executor := ClosingGate(id))
      else if move.DrainTimeout? then s.(executor := Failing(id, 0))
      else s
    case ClosingGate(id) =>
      if move.Proceed? then CloseGate(s, id)
      else if move.Raise? && id in s.sets then s.(executor := Failing(id, FirstUnsucceeded(s.sets[id].components)))
      else s
    case Listing(id) =>
      if move.Proceed? && id in s.sets then s.(executor := Stepping(id, SucceededKinds(s.sets[id].components), 0))
      else if move.Raise? && id in s.sets then s.(executor := Failing(id, FirstUnsucceeded(s.sets[id].components)))
      else s
    case Stepping(id, done, k) => if move.Snapshot? then SnapshotNext(s, id, done, k, move.reference) else s
    case Recording(id, done, k, reference) => if move.Record? then RecordReference(s, id, done, k, reference, move.recorded) else s
    case Failing(id, k) =>
      if !move.MarkFailed? then s
      else s.(sets := if move.committed && k < 3 && id in s.sets then s.sets[id := WithFailure(s.sets[id], k)] else s.sets,
              executor := Releasing(id))
    case Releasing(id) => if move.Proceed? then ReleaseGate(s, id) else s
  }

  function Apply(s: State, step: Step): State {
    match step
    case CreateStep(id) => if id in s.sets then s else s.(sets := s.sets[id := NEW_SET])
    case BeginStep(id) => if s.executor.Idle? && IsCreating(s, id) then s.(executor := Checked(id)) else s
    case RecoverStep => Recover(s)
    case MoveStep(move) => if move.Crash? then s.(executor := Idle) else Advance(s, move)
  }

  function Run(s: State, steps: seq<Step>): State
    decreases |steps|
  {
    if steps == [] then s else Run(Apply(s, steps[0]), steps[1..])
  }

  // ---------------------------------------------------------------- the invariant

  /** A set being created has every component untouched or succeeded, and not all succeeded; a complete set has all three. */
  predicate SetHolds(b: BackupSet) {
    && (forall k :: 0 <= k < 3 ==> (b.components[k].status.Succeeded? ==> b.components[k].reference.Some?))
    && (b.status.Creating? ==> !AllSucceeded(b.components) && forall k :: 0 <= k < 3 ==>
          !b.components[k].status.Failed? && (b.components[k].reference.Some? ==> b.components[k].status.Succeeded?))
    && (b.status.Complete? ==> AllSucceeded(b.components))
  }

  predicate GateHolds(gate: Gate) {
    gate.state.Open? <==> gate.holder.None?
  }

  /** The executor's set is being created behind its own gate. */
  predicate Holding(gate: Gate, sets: map<Id, BackupSet>, id: Id) {
    gate.holder == Some(id) && id in sets && sets[id].status.Creating?
  }

  /** Exactly the components before `k` and the listed ones have succeeded. */
  predicate Progress(c: Components, done: set<nat>, k: nat) {
    forall j: nat :: j < 3 ==> (c[j].status.Succeeded? <==> j < k || j in done)
  }

  predicate ExecutorHolds(gate: Gate, sets: map<Id, BackupSet>, e: Executor) {
    match e
    case Idle => true
    case Checked(id) => id in sets && sets[id].status.Creating?
    case Acquiring(id) => id in sets && sets[id].status.Creating?
    case Draining(id) => Holding(gate, sets, id)
    case ClosingGate(id) => Holding(gate, sets, id)
    case Listing(id) => Holding(gate, sets, id) && gate.state.Closed?
    case Stepping(id, done, k) =>
      id in sets && Progress(sets[id].components, done, k) &&
      (!AllSucceeded(sets[id].components) ==> Holding(gate, sets, id) && gate.state.Closed?)
    case Recording(id, done, k, reference) =>
      k < 3 && k !in done && Holding(gate, sets, id) && gate.state.Closed? && Progress(sets[id].components, done, k)
    case Failing(id, k) => k < 3 && id in sets
    case Releasing(id) => id in sets
  }

  predicate CallsHold(calls: seq<ProviderCall>) {
    forall i :: 0 <= i < |calls| ==> calls[i].gate == Gate(Closed, Some(calls[i].id))
  }

  /** Two recorded references were taken in different holdings of the gate. */
  predicate Mixed(c: Components) {
    exists i, j :: 0 <= i < j < 3 && c[i].reference.Some? && c[j].reference.Some? && c[i].window != c[j].window
  }

  /** A recorded reference is older than any that could be recorded now. */
  predicate Outdated(c: Components, next: nat) {
    exists i :: 0 <= i < 3 && c[i].reference.Some? && c[i].window < next
  }

  /** The holding of the gate in which the set's next reference would be taken. */
  function NextWindow(gate: Gate, windows: nat, id: Id): nat {
    if gate.holder == Some(id) then windows else windows + 1
  }

  predicate WindowHolds(gate: Gate, windows: nat, split: bool, id: Id, b: BackupSet) {
    && (forall k :: 0 <= k < 3 ==> (b.components[k].reference.Some? ==> b.components[k].window <= windows))
    && (split && b.status.Creating? ==> Mixed(b.components) || Outdated(b.components, NextWindow(gate, windows, id)))
    && (split && b.status.Complete? ==> Mixed(b.components))
    && (!split ==> !Mixed(b.components))
    && (!split && b.status.Creating? ==> !Outdated(b.components, NextWindow(gate, windows, id)))
  }

  predicate SetsHold(gate: Gate, sets: map<Id, BackupSet>, windows: nat, split: set<Id>) {
    forall id | id in sets :: SetHolds(sets[id]) && WindowHolds(gate, windows, id in split, id, sets[id])
  }

  predicate Inv(s: State) {
    && GateHolds(s.gate) && CallsHold(s.calls) && s.split <= s.sets.Keys
    && SetsHold(s.gate, s.sets, s.windows, s.split)
    && ExecutorHolds(s.gate, s.sets, s.executor)
  }

  /** What is recorded stays, with the holding of the gate it comes from. */
  predicate Kept(c: Components, later: Components) {
    forall k :: 0 <= k < 3 && c[k].reference.Some? ==> later[k].reference == c[k].reference && later[k].window == c[k].window
  }

  /** Nothing recorded is overwritten, and what failed stays failed. */
  predicate SetGrows(b: BackupSet, later: BackupSet) {
    Kept(b.components, later.components) && (b.status.FailedSet? ==> later.status.FailedSet?)
  }

  predicate Grows(s: State, t: State) {
    s.calls <= t.calls && forall id | id in s.sets :: id in t.sets && SetGrows(s.sets[id], t.sets[id])
  }

  // ---------------------------------------------------------------- main results

  /** Every provider call of every run, crashes and adoptions included, happens behind the closed gate of its own backup. */
  lemma SnapshotsBehindOwnGate(steps: seq<Step>, i: nat)
    requires i < |Run(START, steps).calls|
    ensures Run(START, steps).calls[i].gate == Gate(Closed, Some(Run(START, steps).calls[i].id))
  {
    RunKeeps(START, steps);
  }

  /** A complete set has all three components succeeded, each with its reference. */
  lemma CompleteHasAllThree(steps: seq<Step>, id: Id)
    requires id in Run(START, steps).sets && Run(START, steps).sets[id].status.Complete?
    ensures forall k :: 0 <= k < 3 ==>
      Run(START, steps).sets[id].components[k].status.Succeeded? && Run(START, steps).sets[id].components[k].reference.Some?
  {
    RunKeeps(START, steps);
    var b := Run(START, steps).sets[id];
    assert SetHolds(b);
  }

  /** Whatever happens later, a recorded reference is never overwritten. */
  lemma ReferencesAreFinal(steps: seq<Step>, more: seq<Step>, id: Id, k: nat)
    requires id in Run(START, steps).sets && k < 3 && Run(START, steps).sets[id].components[k].reference.Some?
    ensures id in Run(START, steps + more).sets
    ensures Run(START, steps + more).sets[id].components[k].reference == Run(START, steps).sets[id].components[k].reference
  {
    RunKeeps(START, steps);
    RunKeeps(Run(START, steps), more);
    RunSplits(START, steps, more);
    assert SetGrows(Run(START, steps).sets[id], Run(Run(START, steps), more).sets[id]);
  }

  /** A backup that was marked failed never completes. */
  lemma FailedForGood(steps: seq<Step>, more: seq<Step>, id: Id)
    requires id in Run(START, steps).sets && Run(START, steps).sets[id].status.FailedSet?
    ensures id in Run(START, steps + more).sets && Run(START, steps + more).sets[id].status.FailedSet?
  {
    RunKeeps(START, steps);
    RunKeeps(Run(START, steps), more);
    RunSplits(START, steps, more);
    assert SetGrows(Run(START, steps).sets[id], Run(Run(START, steps), more).sets[id]);
  }

  /**
   A gate left shut by an executor that died is never lost: either its backup is
   still being created, and the next execution adopts the gate as it is, or the
   recovery of stale gates opens it.
  */
  lemma GateNeverLost(steps: seq<Step>)
    requires Run(START, steps).executor.Idle? && !Run(START, steps).gate.state.Open?
    ensures Run(START, steps).gate.holder.Some?
    ensures var s, id := Run(START, steps), Run(START, steps).gate.holder.value;
      if IsCreating(s, id) then Apply(Apply(s, BeginStep(id)), MoveStep(Proceed)) == s.(executor := Draining(id))
      else Apply(s, RecoverStep).gate == Gate(Open, None)
  {
    RunKeeps(START, steps);
  }

  /**
   The three references of a complete backup were all taken in one holding of the
   gate if and only if the gate was never opened while that backup was half done.
  */
  lemma OneWindowIffNeverSplit(steps: seq<Step>, id: Id)
    requires id in Run(START, steps).sets && Run(START, steps).sets[id].status.Complete?
    ensures !Mixed(Run(START, steps).sets[id].components) <==> id !in Run(START, steps).split
  {
    RunKeeps(START, steps);
    var s := Run(START, steps);
    assert WindowHolds(s.gate, s.windows, id in s.split, id, s.sets[id]);
  }

  /** And it is opened on a half-done backup only by the release that follows a failure which could not be marked. */
  lemma SplitOnlyAtRelease(steps: seq<Step>, step: Step, id: Id)
    requires id !in Run(START, steps).split
    ensures id in Apply(Run(START, steps), step).split <==> ReleasesHalfDone(Run(START, steps), step, id)
  {
    RunKeeps(START, steps);
    SplitsAtRelease(Run(START, steps), step, id);
  }

  predicate ReleasesHalfDone(s: State, step: Step, id: Id) {
    && s.executor == Releasing(id) && step == MoveStep(Proceed) && s.gate.holder == Some(id)
    && IsCreating(s, id) && AnyRecorded(s.sets[id].components)
  }

  /** A complete backup with references from two holdings of the gate: the first execution fails unmarked, the second resumes. */
  lemma MixedBackupIsReachable(id: Id, a: string, b: string, c: string) returns (steps: seq<Step>)
    ensures id in Run(START, steps).sets && Run(START, steps).sets[id].status.Complete? && Mixed(Run(START, steps).sets[id].components)
  {
    steps := HalfDone(id, a);
    steps := Enter(steps, id);
    assert SucceededKinds([Component(Succeeded, Some(a), 1), PENDING, PENDING]) == {0};
    steps := Then(steps, MoveStep(Snapshot(None)));
    steps := Take(steps, id, {0}, 1, b);
    var one, two, three := Component(Succeeded, Some(a), 1), Component(Succeeded, Some(b), 2), Component(Succeeded, Some(c), 2);
    Recorded3(BackupSet(Creating, [one, PENDING, PENDING]), 1, b, 2, one, two, PENDING);
    steps := Take(steps, id, {0}, 2, c);
    Recorded3(BackupSet(Creating, [one, two, PENDING]), 2, c, 2, one, two, three);
    assert Run(START, steps).sets[id] == BackupSet(Complete, [one, two, three]);
    assert [one, two, three][0].window != [one, two, three][1].window;
  }

  // ---------------------------------------------------------------- every step keeps it

  /** Opening a gate: its set is either done with or is now split. */
  lemma OpenKeeps(s: State)
    requires GateHolds(s.gate) && SetsHold(s.gate, s.sets, s.windows, s.split)
    ensures var t := OpenGate(s); GateHolds(t.gate) && SetsHold(t.gate, t.sets, t.windows, t.split)
  {
    var t := OpenGate(s);
    forall id | id in s.sets ensures WindowHolds(t.gate, t.windows, id in t.split, id, s.sets[id]) {
      OpenKeepsWindow(s, id);
    }
  }

  lemma OpenKeepsWindow(s: State, id: Id)
    requires id in s.sets && SetHolds(s.sets[id]) && WindowHolds(s.gate, s.windows, id in s.split, id, s.sets[id])
    ensures WindowHolds(OpenGate(s).gate, s.windows, id in OpenGate(s).split, id, s.sets[id])
  {
    var c := s.sets[id].components;
    if s.gate.holder == Some(id) && s.sets[id].status.Creating? && AnyRecorded(c) {
      assert Outdated(c, s.windows + 1);
      if id !in s.split { assert id in OpenGate(s).split; }
    }
  }

  lemma AcquireKeeps(s: State, id: Id)
    requires Inv(s) && s.executor == Acquiring(id)
    ensures Inv(Acquire(s, id))
  {
    if s.gate.state.Open? {
      var t := Acquire(s, id);
      forall other | other in s.sets ensures WindowHolds(t.gate, t.windows, other in t.split, other, s.sets[other]) {
        assert WindowHolds(s.gate, s.windows, other in s.split, other, s.sets[other]);
      }
    }
  }

  lemma CloseKeeps(s: State, id: Id)
    requires Inv(s) && s.executor == ClosingGate(id)
    ensures Inv(CloseGate(s, id))
  {
    var t := CloseGate(s, id);
    forall other | other in s.sets ensures WindowHolds(t.gate, t.windows, other in t.split, other, s.sets[other]) {
      assert WindowHolds(s.gate, s.windows, other in s.split, other, s.sets[other]);
    }
  }

  lemma RecordKeepsWindow(windows: nat, split: bool, id: Id, gate: Gate, b: BackupSet, k: nat, reference: string)
    requires SetHolds(b) && b.status.Creating? && k < 3 && !b.components[k].status.Succeeded? && gate.holder == Some(id)
    requires WindowHolds(gate, windows, split, id, b)
    ensures SetHolds(WithComponent(b, k, reference, windows))
    ensures WindowHolds(gate, windows, split, id, WithComponent(b, k, reference, windows))
  {
    var c := WithComponent(b, k, reference, windows).components;
    assert b.components[k].reference.None?;
    if split {
      if Mixed(b.components) {
        var i, j :| 0 <= i < j < 3 && b.components[i].reference.Some? && b.components[j].reference.Some? && b.components[i].window != b.components[j].window;
        assert c[i] == b.components[i] && c[j] == b.components[j];
      } else {
        var i :| 0 <= i < 3 && b.components[i].reference.Some? && b.components[i].window < windows;
        assert c[i] == b.components[i] && c[k].window == windows;
        assert Mixed(c);
      }
    } else {
      forall i | 0 <= i < 3 && c[i].reference.Some? ensures c[i].window == windows {
        assert i != k ==> c[i] == b.components[i] && !(b.components[i].window < windows);
      }
    }
  }

  lemma RecordKeeps(s: State, id: Id, done: set<nat>, k: nat, reference: string, recorded: Recorded)
    requires Inv(s) && s.executor == Recording(id, done, k, reference)
    ensures Inv(RecordReference(s, id, done, k, reference, recorded)) && Grows(s, RecordReference(s, id, done, k, reference, recorded))
  {
    RecordKeepsWindow(s.windows, id in s.split, id, s.gate, s.sets[id], k, reference);
    var b := WithComponent(s.sets[id], k, reference, s.windows);
    assert b.components[k].status.Succeeded?;
    assert forall j: nat :: j < 3 && j != k ==> b.components[j] == s.sets[id].components[j];
    assert Progress(b.components, done, k + 1);
  }

  lemma FailureKeeps(s: State, id: Id, k: nat)
    requires Inv(s) && k < 3 && id in s.sets
    ensures SetsHold(s.gate, s.sets[id := WithFailure(s.sets[id], k)], s.windows, s.split)
  {
    var b := WithFailure(s.sets[id], k);
    assert forall j :: 0 <= j < 3 ==> b.components[j].reference == s.sets[id].components[j].reference && b.components[j].window == s.sets[id].components[j].window;
    assert WindowHolds(s.gate, s.windows, id in s.split, id, s.sets[id]);
    assert SetHolds(s.sets[id]);
    assert SetHolds(b) && WindowHolds(s.gate, s.windows, id in s.split, id, b);
  }

  lemma ReleaseKeeps(s: State, id: Id)
    requires Inv(s)
    ensures Inv(ReleaseGate(s, id))
  {
    OpenKeeps(s);
  }

  lemma ListingKeeps(s: State, id: Id)
    requires Inv(s) && s.executor == Listing(id)
    ensures Inv(s.(executor := Stepping(id, SucceededKinds(s.sets[id].components), 0)))
  {}

  lemma SnapshotKeeps(s: State, id: Id, done: set<nat>, k: nat, reference: Option<string>)
    requires Inv(s) && s.executor == Stepping(id, done, k)
    ensures Inv(SnapshotNext(s, id, done, k, reference)) && Grows(s, SnapshotNext(s, id, done, k, reference))
  {
    var c := s.sets[id].components;
    if k < 3 && k !in done {
      assert !c[k].status.Succeeded?;
    } else if k < 3 {
      assert Progress(c, done, k + 1);
    }
  }

  lemma RecoverKeeps(s: State)
    requires Inv(s)
    ensures Inv(Recover(s))
  {
    OpenKeeps(s);
  }

  lemma CreateKeeps(s: State, id: Id)
    requires Inv(s) && id !in s.sets
    ensures Inv(s.(sets := s.sets[id := NEW_SET])) && Grows(s, s.(sets := s.sets[id := NEW_SET]))
  {
    assert !NEW_SET.components[0].status.Succeeded?;
    assert SetHolds(NEW_SET) && WindowHolds(s.gate, s.windows, false, id, NEW_SET);
    assert id !in s.split;
  }

  lemma AdvanceKeeps(s: State, move: Move)
    requires Inv(s)
    ensures Inv(Advance(s, move))
  {
    match s.executor
    case Idle =>
    case Checked(id) =>
    case Acquiring(id) => if move.Proceed? { AcquireKeeps(s, id); }
    case Draining(id) =>
    case ClosingGate(id) => if move.Proceed? { CloseKeeps(s, id); }
    case Listing(id) => if move.Proceed? { ListingKeeps(s, id); }
    case Stepping(id, done, k) => if move.Snapshot? { SnapshotKeeps(s, id, done, k, move.reference); }
    case Recording(id, done, k, reference) => if move.Record? { RecordKeeps(s, id, done, k, reference, move.recorded); }
    case Failing(id, k) => if move.MarkFailed? && move.committed { FailureKeeps(s, id, k); }
    case Releasing(id) => if move.Proceed? { ReleaseKeeps(s, id); }
  }

  lemma AdvanceGrows(s: State, move: Move)
    requires Inv(s)
    ensures Grows(s, Advance(s, move))
  {
    if s.executor.Stepping? && move.Snapshot? {
      SnapshotKeeps(s, s.executor.id, s.executor.done, s.executor.k, move.reference);
    }
    if s.executor.Recording? && move.Record? {
      RecordKeeps(s, s.executor.id, s.executor.done, s.executor.k, s.executor.reference, move.recorded);
    }
  }

  lemma StepKeeps(s: State, step: Step)
    requires Inv(s)
    ensures Inv(Apply(s, step)) && Grows(s, Apply(s, step))
  {
    match step
    case CreateStep(id) => if id !in s.sets { CreateKeeps(s, id); }
    case BeginStep(id) =>
    case RecoverStep => RecoverKeeps(s);
    case MoveStep(move) =>
      AdvanceKeeps(s, move);
      AdvanceGrows(s, move);
  }

  lemma {:induction false} RunKeeps(s: State, steps: seq<Step>)
    requires Inv(s)
    ensures Inv(Run(s, steps)) && Grows(s, Run(s, steps))
    decreases |steps|
  {
    if steps != [] {
      var on := Apply(s, steps[0]);
      StepKeeps(s, steps[0]);
      RunKeeps(on, steps[1..]);
      GrowsTrans(s, on, Run(on, steps[1..]));
    }
  }

  lemma GrowsTrans(s: State, t: State, u: State)
    requires Grows(s, t) && Grows(t, u)
    ensures Grows(s, u)
  {
    forall id | id in s.sets ensures id in u.sets && SetGrows(s.sets[id], u.sets[id]) {
      assert id in t.sets;
    }
  }

  lemma {:induction false} RunSplits(s: State, steps: seq<Step>, more: seq<Step>)
    ensures Run(s, steps + more) == Run(Run(s, steps), more)
    decreases |steps|
  {
    if steps == [] {
      assert [] + more == more;
    } else {
      assert (steps + more)[1..] == steps[1..] + more;
      RunSplits(Apply(s, steps[0]), steps[1..], more);
    }
  }

  lemma SplitsAtRelease(s: State, step: Step, id: Id)
    requires Inv(s) && id !in s.split
    ensures id in Apply(s, step).split <==> ReleasesHalfDone(s, step, id)
  {}

  // ---------------------------------------------------------------- the run that mixes two holdings

  lemma Then(steps: seq<Step>, step: Step) returns (more: seq<Step>)
    ensures Run(START, more) == Apply(Run(START, steps), step)
  {
    more := steps + [step];
    RunSplits(START, steps, [step]);
    assert Run(Run(START, steps), [step]) == Run(Apply(Run(START, steps), step), [step][1..]);
  }

  /** An undisturbed execution takes the gate and reaches its first component. */
  lemma Enter(steps: seq<Step>, id: Id) returns (more: seq<Step>)
    requires Run(START, steps).executor.Idle? && Run(START, steps).gate == Gate(Open, None) && IsCreating(Run(START, steps), id)
    ensures Run(START, more) == Run(START, steps).(gate := Gate(Closed, Some(id)), windows := Run(START, steps).windows + 1,
      executor := Stepping(id, SucceededKinds(Run(START, steps).sets[id].components), 0))
  {
    var s := Run(START, steps);
    more := Then(steps, BeginStep(id));
    assert Run(START, more) == s.(executor := Checked(id));
    more := Then(more, MoveStep(Proceed));
    assert Run(START, more) == s.(executor := Acquiring(id));
    more := Then(more, MoveStep(Proceed));
    s := s.(gate := Gate(Closing, Some(id)), windows := s.windows + 1);
    assert Run(START, more) == s.(executor := Draining(id));
    more := Then(more, MoveStep(Proceed));
    assert Run(START, more) == s.(executor := ClosingGate(id));
    more := Then(more, MoveStep(Proceed));
    assert Run(START, more) == s.(gate := Gate(Closed, Some(id)), executor := Listing(id));
    more := Then(more, MoveStep(Proceed));
  }

  /** One component is taken and recorded. */
  lemma Take(steps: seq<Step>, id: Id, done: set<nat>, k: nat, reference: string) returns (more: seq<Step>)
    requires Run(START, steps).executor == Stepping(id, done, k) && k < 3 && k !in done && id in Run(START, steps).sets
    ensures Run(START, more).sets == Run(START, steps).sets[id := WithComponent(Run(START, steps).sets[id], k, reference, Run(START, steps).windows)]
    ensures Run(START, more).executor == Stepping(id, done, k + 1)
    ensures Run(START, more).gate == Run(START, steps).gate && Run(START, more).windows == Run(START, steps).windows
  {
    more := Then(steps, MoveStep(Snapshot(Some(reference))));
    more := Then(more, MoveStep(Record(Committed)));
  }

  /** The next snapshot fails, marking the backup failed does not commit, and the gate is released. */
  lemma FailUnmarked(steps: seq<Step>, id: Id, done: set<nat>, k: nat) returns (more: seq<Step>)
    requires Run(START, steps).executor == Stepping(id, done, k) && k < 3 && k !in done
    requires Run(START, steps).gate == Gate(Closed, Some(id))
    ensures Run(START, more).sets == Run(START, steps).sets && Run(START, more).executor == Idle
    ensures Run(START, more).gate == Gate(Open, None) && Run(START, more).windows == Run(START, steps).windows
  {
    more := Then(steps, MoveStep(Snapshot(None)));
    more := Then(more, MoveStep(MarkFailed(false)));
    more := Then(more, MoveStep(Proceed));
  }

  /** The three components after one more is recorded. */
  lemma Recorded3(s: BackupSet, k: nat, reference: string, window: nat, x: Component, y: Component, z: Component)
    requires k < 3 && s.components[k := Component(Succeeded, Some(reference), window)] == [x, y, z]
    ensures WithComponent(s, k, reference, window) ==
      BackupSet(if x.status.Succeeded? && y.status.Succeeded? && z.status.Succeeded? then Complete else s.status, [x, y, z])
  {
    assert [x, y, z][0] == x && [x, y, z][1] == y && [x, y, z][2] == z;
  }

  lemma HalfDone(id: Id, a: string) returns (steps: seq<Step>)
    ensures Run(START, steps).executor.Idle? && Run(START, steps).gate == Gate(Open, None) && Run(START, steps).windows == 1
    ensures Run(START, steps).sets == map[id := BackupSet(Creating, [Component(Succeeded, Some(a), 1), PENDING, PENDING])]
  {
    steps := Then([], CreateStep(id));
    assert Run(START, steps) == START.(sets := map[id := NEW_SET]);
    steps := Enter(steps, id);
    assert SucceededKinds(NEW_SET.components) == {};
    steps := Take(steps, id, {}, 0, a);
    Recorded3(NEW_SET, 0, a, 1, Component(Succeeded, Some(a), 1), PENDING, PENDING);
    steps := FailUnmarked(steps, id, {}, 1);
  }

  // ---------------------------------------------------------------- the rows as the source updates them

  class WriteGateStore {
    var gate: Gate
    var sets: map<Id, BackupSet>
    /** The program counter of `_execute_backup`. */
    var executor: Executor
    ghost var calls: seq<ProviderCall>
    var windows: nat
    ghost var split: set<Id>

    ghost function View(): State
      reads this
    {
      State(gate, sets, executor, calls, windows, split)
    }

    constructor ()
      ensures View() == START
    {
      gate, sets, executor, calls, windows, split := Gate(Open, None), map[], Idle, [], 0, {};
    }

    method CreateBackupSet(id: Id)
      requires id !in sets
      modifies this
      ensures View() == Apply(old(View()), CreateStep(id))
    {
      sets := sets[id := NEW_SET];
    }

    method TryAcquireGate(id: Id) returns (acquired: bool)
      requires executor == Acquiring(id)
      modifies this
      ensures View() == Apply(old(View()), MoveStep(Proceed))
      ensures acquired <==> old(gate).state.Open?
    {
      acquired := gate.state.Open?;
      if acquired {
        gate, windows := Gate(Closing, Some(id)), windows + 1;
      }
      executor := if acquired then Draining(id) else Idle;
    }

    method CloseOwnGate(id: Id)
      requires executor == ClosingGate(id)
      modifies this`gate, this`executor
      ensures View() == Apply(old(View()), MoveStep(Proceed))
    {
      if gate == Gate(Closing, Some(id)) {
        gate := Gate(Closed, Some(id));
      }
      executor := Listing(id);
    }

    method SetOpen()
      modifies this`gate, this`split
      ensures View() == OpenGate(old(View()))
    {
      split := OpenGate(View()).split;
      gate := Gate(Open, None);
    }

    method ReleaseOwnGate(id: Id)
      requires executor == Releasing(id)
      modifies this
      ensures View() == Apply(old(View()), MoveStep(Proceed))
    {
      if gate.holder == Some(id) && !gate.state.Open? {
        SetOpen();
      }
      executor := Idle;
    }

    method RecoverStaleGate()
      modifies this
      ensures View() == Apply(old(View()), RecoverStep)
    {
      if gate.state.Open? || (gate.holder.Some? && gate.holder.value in sets && sets[gate.holder.value].status.Creating?) {
        return;
      }
      SetOpen();
    }

    /** The scan of the components, and with it whether the set is now complete. */
    method CompleteComponent(id: Id, done: set<nat>, k: nat, reference: string)
      requires executor == Recording(id, done, k, reference) && k < 3 && id in sets
      modifies this
      ensures View() == Apply(old(View()), MoveStep(Record(Committed)))
    {
      var components: Components := sets[id].components[k := Component(Succeeded, Some(reference), windows)];
      var complete, j := true, 0;
      while j < 3
        invariant 0 <= j <= 3
        invariant complete <==> forall i :: 0 <= i < j ==> components[i].status.Succeeded?
      {
        complete := complete && components[j].status.Succeeded?;
        j := j + 1;
      }
      sets := sets[id := BackupSet(if complete then Complete else sets[id].status, components)];
      executor := Stepping(id, done, k + 1);
    }

    method FailComponent(id: Id, k: nat)
      requires executor == Failing(id, k) && k < 3 && id in sets
      modifies this
      ensures View() == Apply(old(View()), MoveStep(MarkFailed(true)))
    {
      sets := sets[id := BackupSet(FailedSet, sets[id].components[k := sets[id].components[k].(status := Failed)])];
      executor := Releasing(id);
    }

    ghost predicate Valid()
      reads this
    {
      Inv(View())
    }

    /** `_run_snapshot_sequence`, one component: passed over if it has succeeded, else asked of its provider. */
    method TakeSnapshot(id: Id, done: set<nat>, k: nat, reference: Option<string>)
      requires executor == Stepping(id, done, k)
      modifies this`executor, this`calls
      ensures View() == Apply(old(View()), MoveStep(Snapshot(reference)))
    {
      if k >= 3 {
        executor := Releasing(id);
      } else if k in done {
        executor := Stepping(id, done, k + 1);
      } else {
        calls := calls + [ProviderCall(id, k, gate)];
        executor := if reference.Some? then Recording(id, done, k, reference.value) else Failing(id, k);
      }
    }

    method RecordSnapshot(id: Id, done: set<nat>, k: nat, reference: string, recorded: Recorded)
      requires executor == Recording(id, done, k, reference)
      modifies this
      ensures View() == Apply(old(View()), MoveStep(Record(recorded)))
    {
      if k >= 3 || id !in sets || recorded.RaisedBefore? {
        executor := Failing(id, k);
        return;
      }
      CompleteComponent(id, done, k, reference);
      if !recorded.Committed? {
        executor := Failing(id, k);
      }
    }

    method MarkSetFailed(id: Id, k: nat, committed: bool)
      requires executor == Failing(id, k)
      modifies this
      ensures View() == Apply(old(View()), MoveStep(MarkFailed(committed)))
    {
      if committed && k < 3 && id in sets {
        FailComponent(id, k);
      } else {
        executor := Releasing(id);
      }
    }

    /** Reading the gate row, the drain and the list of components, before the first snapshot. */
    method Prepare(move: Move)
      requires executor.Checked? || executor.Draining? || executor.ClosingGate? || executor.Listing?
      requires !move.Crash?
      modifies this
      ensures View() == Apply(old(View()), MoveStep(move))
    {
      var id := executor.id;
      if executor.Checked? {
        if move.Proceed? {
          executor := if gate.state.Open? then Acquiring(id) else if gate.holder == Some(id) then Draining(id) else Idle;
        }
      } else if executor.Draining? {
        executor := if move.Proceed? then ClosingGate(id) else if move.DrainTimeout? then Failing(id, 0) else executor;
      } else if move.Raise? && id in sets {
        executor := Failing(id, FirstUnsucceeded(sets[id].components));
      } else if executor.ClosingGate? {
        if move.Proceed? {
          CloseOwnGate(id);
        }
      } else if move.Proceed? && id in sets {
        executor := Stepping(id, SucceededKinds(sets[id].components), 0);
      }
    }

    method MoveOn(move: Move)
      requires !move.Crash?
      modifies this
      ensures View() == Apply(old(View()), MoveStep(move))
    {
      match executor
      case Idle =>
      case Acquiring(id) =>
        if move.Proceed? {
          var acquired := TryAcquireGate(id);
        }
      case Stepping(id, done, k) => if move.Snapshot? { TakeSnapshot(id, done, k, move.reference); }
      case Recording(id, done, k, reference) => if move.Record? { RecordSnapshot(id, done, k, reference, move.recorded); }
      case Failing(id, k) => if move.MarkFailed? { MarkSetFailed(id, k, move.committed); }
      case Releasing(id) => if move.Proceed? { ReleaseOwnGate(id); }
      case _ => Prepare(move);
    }

    method Perform(step: Step)
      requires Valid()
      modifies this
      ensures Valid() && View() == Apply(old(View()), step)
    {
      StepKeeps(View(), step);
      match step
      case CreateStep(id) => if id !in sets { CreateBackupSet(id); }
      case BeginStep(id) =>
        if executor.Idle? && id in sets && sets[id].status.Creating? {
          executor := Checked(id);
        }
      case RecoverStep => RecoverStaleGate();
      case MoveStep(move) =>
        if move.Crash? {
          executor := Idle;
        } else {
          MoveOn(move);
        }
    }

    /** Executions, crashes and recoveries in any order: every snapshot is taken behind the backup's own gate. */
    method PerformAll(steps: seq<Step>)
      requires Valid()
      modifies this
      ensures Valid() && View() == Run(old(View()), steps) && CallsHold(calls)
    {
      var i := 0;
      while i < |steps|
        invariant 0 <= i <= |steps| && Valid()
        invariant Run(View(), steps[i..]) == Run(old(View()), steps)
      {
        assert steps[i..][1..] == steps[i + 1..];
        Perform(steps[i]);
        i := i + 1;
      }
    }
  }
}

/**
 The public graph source and its consumers' acknowledgements
 (app/documents/public_graph.py:138-248, 252-602).

 Revisions count the recorded changes; a manifest's hash is given with the change.
*/
module SourceAcks {
  import opened Options

  datatype Kind = Indexing | PublicGraph
  datatype Purpose = Stage | Release | Rollback | Discard
  datatype RowState = Held | Discarded
  datatype Consumer = Consumer(kind: Kind, id: string)
  datatype Request = Request(consumer: Consumer, revision: int, hash: string, purpose: Purpose, operation: string, fence: Option<int>)
  datatype Row = Row(request: Request, state: RowState)
  datatype Manifest = Manifest(revision: nat, hash: string, fence: nat)
  datatype Head = Head(revision: nat, hash: Option<string>, fence: nat)

  datatype State = State(
    trusted: set<Consumer>, revisions: nat, fences: nat, manifests: seq<Manifest>, head: Head, rows: seq<Row>)

  datatype Error = NotTrusted | FenceRequired | RevisionNotFound | HashMismatch | OperationConflict | SourceChanged | AlreadyAcknowledged | NotHeld
  datatype Result = Accepted(receipt: Row) | Rejected(error: Error)

  function NewState(trusted: set<Consumer>): State {
    State(trusted, 0, 0, [], Head(0, None, 0), [])
  }

  // ---------------------------------------------------------------- queries

  function FindManifest(manifests: seq<Manifest>, revision: int): (i: nat)
    ensures i <= |manifests|
    ensures i < |manifests| ==> manifests[i].revision == revision
    ensures forall k :: 0 <= k < i ==> manifests[k].revision != revision
  {
    if manifests == [] || manifests[0].revision == revision then 0 else 1 + FindManifest(manifests[1..], revision)
  }

  function FindOperation(rows: seq<Row>, operation: string): (i: nat)
    ensures i <= |rows|
    ensures i < |rows| ==> rows[i].request.operation == operation
    ensures forall k :: 0 <= k < i ==> rows[k].request.operation != operation
  {
    if rows == [] || rows[0].request.operation == operation then 0 else 1 + FindOperation(rows[1..], operation)
  }

  predicate Matches(row: Row, consumer: Consumer, revision: int) {
    row.request.consumer == consumer && row.request.revision == revision
  }

  predicate HasPurpose(rows: seq<Row>, consumer: Consumer, revision: int, purpose: Purpose) {
    exists i :: 0 <= i < |rows| && Matches(rows[i], consumer, revision) && rows[i].request.purpose == purpose
  }

  predicate HoldsPurpose(rows: seq<Row>, consumer: Consumer, revision: int, purpose: Purpose) {
    exists i :: 0 <= i < |rows| && Matches(rows[i], consumer, revision) && rows[i].request.purpose == purpose && rows[i].state.Held?
  }

  /** The rows a discard takes back. */
  predicate Affected(row: Row, q: Request) {
    Matches(row, q.consumer, q.revision) && row.request.hash == q.hash && row.state.Held?
  }

  function DiscardHeld(rows: seq<Row>, q: Request): (later: seq<Row>)
    ensures |later| == |rows|
    ensures forall i :: 0 <= i < |rows| ==> later[i] == if Affected(rows[i], q) then rows[i].(state := Discarded) else rows[i]
  {
    seq(|rows|, i requires 0 <= i < |rows| => if Affected(rows[i], q) then rows[i].(state := Discarded) else rows[i])
  }

  predicate AtHead(head: Head, q: Request) {
    head.revision == q.revision && head.hash == Some(q.hash) && q.fence == Some(head.fence)
  }

  // ---------------------------------------------------------------- transitions

  /** `_record_source_change`: both counters move, a manifest is kept, and the head points at it. */
  function RecordChange(s: State, hash: string): State {
    s.(revisions := s.revisions + 1, fences := s.fences + 1,
       manifests := s.manifests + [Manifest(s.revisions + 1, hash, s.fences + 1)],
       head := Head(s.revisions + 1, Some(hash), s.fences + 1))
  }

  /** What is checked before the operation is looked up. */
  function Precheck(s: State, q: Request): Option<Error> {
    if q.consumer !in s.trusted then Some(NotTrusted)
    else if q.purpose.Release? && (q.fence.None? || q.fence.value < 1) then Some(FenceRequired)
    else
      var i := FindManifest(s.manifests, q.revision);
      if i == |s.manifests| then Some(RevisionNotFound)
      else if s.manifests[i].hash != q.hash then Some(HashMismatch)
      else None
  }

  /** What stands against a new acknowledgement. */
  function Refusal(s: State, q: Request): Option<Error> {
    if q.purpose.Release? && !AtHead(s.head, q) then Some(SourceChanged)
    else if HasPurpose(s.rows, q.consumer, q.revision, q.purpose) then Some(AlreadyAcknowledged)
    else if q.purpose.Discard? && !(exists i :: 0 <= i < |s.rows| && Affected(s.rows[i], q)) then Some(NotHeld)
    else if (q.purpose.Release? || q.purpose.Rollback?) && !HoldsPurpose(s.rows, q.consumer, q.revision, Stage) then Some(NotHeld)
    else None
  }

  function Answer(s: State, q: Request): Result {
    if Precheck(s, q).Some? then Rejected(Precheck(s, q).value)
    else
      var i := FindOperation(s.rows, q.operation);
      if i < |s.rows| then if s.rows[i].request == q then Accepted(s.rows[i]) else Rejected(OperationConflict)
      else if Refusal(s, q).Some? then Rejected(Refusal(s, q).value)
      else Accepted(Row(q, if q.purpose.Discard? then Discarded else Held))
  }

  /** The request is accepted as a new acknowledgement, not as a repeated one. */
  predicate IsNew(s: State, q: Request) {
    Answer(s, q).Accepted? && FindOperation(s.rows, q.operation) == |s.rows|
  }

  function Acknowledge(s: State, q: Request): State {
    if !IsNew(s, q) then s
    else s.(rows := (if q.purpose.Discard? then DiscardHeld(s.rows, q) else s.rows) + [Answer(s, q).receipt])
  }

  datatype Step = ChangeStep(hash: string) | AcknowledgeStep(q: Request)

  function Apply(s: State, step: Step): State {
    match step
    case ChangeStep(hash) => RecordChange(s, hash)
    case AcknowledgeStep(q) => Acknowledge(s, q)
  }

  function Run(s: State, steps: seq<Step>): State
    decreases |steps|
  {
    if steps == [] then s else Run(Apply(s, steps[0]), steps[1..])
  }

  // ---------------------------------------------------------------- the invariant

  /** The counters, the manifests and the head agree. */
  predicate HeadHolds(s: State) {
    && s.revisions == s.fences == |s.manifests| == s.head.revision == s.head.fence
    && (forall i :: 0 <= i < |s.manifests| ==> s.manifests[i].revision == i + 1 && s.manifests[i].fence == i + 1)
    && s.head.hash == if s.manifests == [] then None else Some(s.manifests[|s.manifests| - 1].hash)
  }

  /** One row an operation, and one row a purpose for each consumer and revision. */
  predicate KeysHold(rows: seq<Row>) {
    forall i, k :: 0 <= i < k < |rows| ==> Differ(rows[i].request, rows[k].request)
  }

  predicate Differ(a: Request, b: Request) {
    a.operation != b.operation && (a.consumer, a.revision, a.purpose) != (b.consumer, b.revision, b.purpose)
  }

  /** Every row names a manifest. */
  predicate HashesHold(rows: seq<Row>, manifests: seq<Manifest>) {
    forall i :: 0 <= i < |rows| ==>
      1 <= rows[i].request.revision <= |manifests| && rows[i].request.hash == manifests[rows[i].request.revision - 1].hash
  }

  /** Every row has a stage row beside it, and is held exactly until there is a discard row. */
  predicate StatesHold(rows: seq<Row>) {
    forall i :: 0 <= i < |rows| ==>
      && HasPurpose(rows, rows[i].request.consumer, rows[i].request.revision, Stage)
      && (rows[i].state.Held? <==> !HasPurpose(rows, rows[i].request.consumer, rows[i].request.revision, Discard))
  }

  predicate Inv(s: State) {
    HeadHolds(s) && KeysHold(s.rows) && HashesHold(s.rows, s.manifests) && StatesHold(s.rows)
  }

  lemma FindsManifest(s: State, revision: int)
    requires HeadHolds(s)
    ensures FindManifest(s.manifests, revision) == if 1 <= revision <= |s.manifests| then revision - 1 else |s.manifests|
  {
    if 1 <= revision <= |s.manifests| { assert s.manifests[revision - 1].revision == revision; }
  }

  /** The rules, in terms of what the consumer has acknowledged so far for that revision. */
  predicate Allowed(s: State, q: Request) {
    && !HasPurpose(s.rows, q.consumer, q.revision, q.purpose)
    && (!q.purpose.Stage? ==>
          HasPurpose(s.rows, q.consumer, q.revision, Stage) && !HasPurpose(s.rows, q.consumer, q.revision, Discard))
    && (q.purpose.Release? ==> q.revision == s.head.revision && q.fence == Some(s.head.fence))
  }

  lemma RulesDecide(s: State, q: Request)
    requires Inv(s) && Precheck(s, q).None? && FindOperation(s.rows, q.operation) == |s.rows|
    ensures Answer(s, q).Accepted? <==> Allowed(s, q)
  {
    assert Answer(s, q).Accepted? <==> Refusal(s, q).None?;
    if q.purpose.Discard? {
    } else {
      ReleaseChecksHead(s, q);
    }
  }

  lemma ReleaseChecksHead(s: State, q: Request)
    requires HeadHolds(s) && Precheck(s, q).None?
    ensures AtHead(s.head, q) <==> q.revision == s.head.revision && q.fence == Some(s.head.fence)
  {
    FindsManifest(s, q.revision);
  }

  lemma AffectedIsAll(s: State, q: Request, i: nat)
    requires Inv(s) && Precheck(s, q).None? && i < |s.rows| && Matches(s.rows[i], q.consumer, q.revision)
    ensures s.rows[i].request.hash == q.hash
  {
    FindsManifest(s, q.revision);
  }

  /** Accepting adds the purpose for that consumer and revision, and changes no other. */
  lemma AcknowledgeAdds(s: State, q: Request, consumer: Consumer, revision: int, p: Purpose)
    requires IsNew(s, q)
    ensures HasPurpose(Acknowledge(s, q).rows, consumer, revision, p) <==>
      HasPurpose(s.rows, consumer, revision, p) || (consumer == q.consumer && revision == q.revision && p == q.purpose)
  {
    var later := Acknowledge(s, q).rows;
    assert |later| == |s.rows| + 1 && later[|s.rows|].request == q;
    assert forall i :: 0 <= i < |s.rows| ==> later[i].request == s.rows[i].request;
    if HasPurpose(s.rows, consumer, revision, p) {
      var i :| 0 <= i < |s.rows| && Matches(s.rows[i], consumer, revision) && s.rows[i].request.purpose == p;
      assert Matches(later[i], consumer, revision) && later[i].request.purpose == p;
    }
    if consumer == q.consumer && revision == q.revision && p == q.purpose {
      assert Matches(later[|s.rows|], consumer, revision);
    }
  }

  lemma AcknowledgeKeepsStates(s: State, q: Request, i: nat)
    requires Inv(s) && IsNew(s, q) && i <= |s.rows|
    ensures var row, later := Acknowledge(s, q).rows[i], Acknowledge(s, q).rows;
      && HasPurpose(later, row.request.consumer, row.request.revision, Stage)
      && (row.state.Held? <==> !HasPurpose(later, row.request.consumer, row.request.revision, Discard))
  {
    RulesDecide(s, q);
    var later := Acknowledge(s, q).rows;
    var c, r := later[i].request.consumer, later[i].request.revision;
    AcknowledgeAdds(s, q, c, r, Stage);
    AcknowledgeAdds(s, q, c, r, Discard);
    if i < |s.rows| && Matches(s.rows[i], q.consumer, q.revision) { AffectedIsAll(s, q, i); }
  }

  lemma AcknowledgeKeepsAllStates(s: State, q: Request)
    requires Inv(s) && IsNew(s, q)
    ensures StatesHold(Acknowledge(s, q).rows)
  {
    forall i: nat | i <= |s.rows|
      ensures HasPurpose(Acknowledge(s, q).rows, Acknowledge(s, q).rows[i].request.consumer, Acknowledge(s, q).rows[i].request.revision, Stage)
      ensures Acknowledge(s, q).rows[i].state.Held? <==>
        !HasPurpose(Acknowledge(s, q).rows, Acknowledge(s, q).rows[i].request.consumer, Acknowledge(s, q).rows[i].request.revision, Discard)
    {
      AcknowledgeKeepsStates(s, q, i);
    }
  }

  lemma AddedKeepsHashes(rows: seq<Row>, later: seq<Row>, q: Request, manifests: seq<Manifest>)
    requires HashesHold(rows, manifests) && |later| == |rows| + 1 && later[|rows|].request == q
    requires forall i :: 0 <= i < |rows| ==> later[i].request == rows[i].request
    requires 1 <= q.revision <= |manifests| && q.hash == manifests[q.revision - 1].hash
    ensures HashesHold(later, manifests)
  {}

  /** What a new acknowledgement does to the rows. */
  lemma NewRow(s: State, q: Request)
    requires IsNew(s, q)
    ensures |Acknowledge(s, q).rows| == |s.rows| + 1 && Acknowledge(s, q).rows[|s.rows|].request == q
    ensures forall i :: 0 <= i < |s.rows| ==> Acknowledge(s, q).rows[i].request == s.rows[i].request
    ensures FindOperation(s.rows, q.operation) == |s.rows| && !HasPurpose(s.rows, q.consumer, q.revision, q.purpose)
    ensures Precheck(s, q).None?
  {}

  lemma AcknowledgeKeepsKeys(s: State, q: Request)
    requires Inv(s) && IsNew(s, q)
    ensures KeysHold(Acknowledge(s, q).rows) && HashesHold(Acknowledge(s, q).rows, s.manifests)
  {
    NewRow(s, q);
    FindsManifest(s, q.revision);
    AddedKeepsHashes(s.rows, Acknowledge(s, q).rows, q, s.manifests);
    forall i: nat | i < |s.rows| ensures Differ(s.rows[i].request, q) {}
  }

  lemma AcknowledgeKeeps(s: State, q: Request)
    requires Inv(s)
    ensures Inv(Acknowledge(s, q))
  {
    if IsNew(s, q) {
      AcknowledgeKeepsAllStates(s, q);
      AcknowledgeKeepsKeys(s, q);
      assert HeadHolds(Acknowledge(s, q));
    }
  }

  lemma StepKeeps(s: State, step: Step)
    requires Inv(s)
    ensures Inv(Apply(s, step))
  {
    if step.AcknowledgeStep? { AcknowledgeKeeps(s, step.q); }
  }

  /** Manifests and acknowledgements stay; a row can only be discarded. */
  predicate Grows(s: State, t: State) {
    && s.trusted == t.trusted && |s.manifests| <= |t.manifests| && |s.rows| <= |t.rows|
    && (forall i :: 0 <= i < |s.manifests| ==> t.manifests[i] == s.manifests[i])
    && (forall i :: 0 <= i < |s.rows| ==> t.rows[i].request == s.rows[i].request && (s.rows[i].state.Discarded? ==> t.rows[i].state.Discarded?))
  }

  lemma StepGrows(s: State, step: Step)
    ensures Grows(s, Apply(s, step))
  {}

  lemma {:induction false} RunKeeps(s: State, steps: seq<Step>)
    requires Inv(s)
    ensures Inv(Run(s, steps)) && Grows(s, Run(s, steps))
    decreases |steps|
  {
    if steps != [] {
      StepKeeps(s, steps[0]);
      StepGrows(s, steps[0]);
      RunKeeps(Apply(s, steps[0]), steps[1..]);
    }
  }

  // ---------------------------------------------------------------- main results

  /** In every run the head is the last manifest, and its revision and fence are both counters and the number of changes. */
  lemma HeadIsLastChange(trusted: set<Consumer>, steps: seq<Step>)
    ensures HeadHolds(Run(NewState(trusted), steps))
  {
    RunKeeps(NewState(trusted), steps);
  }

  /**
   A request that passes the checks on its arguments, under a new operation, is
   accepted if and only if the rules allow it: stage once; release, roll back and
   discard at most once each, after staging and before discarding; release only at the head.
  */
  lemma AcceptedIffAllowed(trusted: set<Consumer>, steps: seq<Step>, q: Request)
    requires Precheck(Run(NewState(trusted), steps), q).None?
    requires FindOperation(Run(NewState(trusted), steps).rows, q.operation) == |Run(NewState(trusted), steps).rows|
    ensures Answer(Run(NewState(trusted), steps), q).Accepted? <==> Allowed(Run(NewState(trusted), steps), q)
  {
    RunKeeps(NewState(trusted), steps);
    RulesDecide(Run(NewState(trusted), steps), q);
  }

  /** No consumer has two rows of one purpose for one revision, nor any operation two rows. */
  lemma AtMostOnce(trusted: set<Consumer>, steps: seq<Step>, i: nat, k: nat)
    requires i < k < |Run(NewState(trusted), steps).rows|
    ensures Differ(Run(NewState(trusted), steps).rows[i].request, Run(NewState(trusted), steps).rows[k].request)
  {
    RunKeeps(NewState(trusted), steps);
  }

  /** Once discarded, a revision is never held by that consumer again, whatever is requested later. */
  lemma DiscardedForGood(trusted: set<Consumer>, steps: seq<Step>, more: seq<Step>, consumer: Consumer, revision: int, p: Purpose)
    requires HasPurpose(Run(NewState(trusted), steps).rows, consumer, revision, Discard)
    ensures !HoldsPurpose(Run(Run(NewState(trusted), steps), more).rows, consumer, revision, p)
  {
    RunKeeps(NewState(trusted), steps);
    RunKeeps(Run(NewState(trusted), steps), more);
    DiscardStays(Run(NewState(trusted), steps), Run(Run(NewState(trusted), steps), more), consumer, revision, p);
  }

  lemma DiscardStays(s: State, t: State, consumer: Consumer, revision: int, p: Purpose)
    requires Grows(s, t) && StatesHold(t.rows) && HasPurpose(s.rows, consumer, revision, Discard)
    ensures !HoldsPurpose(t.rows, consumer, revision, p)
  {
    var i :| 0 <= i < |s.rows| && Matches(s.rows[i], consumer, revision) && s.rows[i].request.purpose == Discard;
    assert Matches(t.rows[i], consumer, revision);
    assert HasPurpose(t.rows, consumer, revision, Discard);
  }

  /**
   A repeated request under its operation is answered with its own row in every
   later state, and changes nothing; any other request under it is a conflict.
  */
  lemma RepeatedRequestIsAnswered(trusted: set<Consumer>, steps: seq<Step>, more: seq<Step>, q: Request, other: Request)
    requires IsNew(Run(NewState(trusted), steps), q) && other.operation == q.operation
    ensures Repeats(Run(Acknowledge(Run(NewState(trusted), steps), q), more), q, other)
  {
    RunKeeps(NewState(trusted), steps);
    AcknowledgeKeeps(Run(NewState(trusted), steps), q);
    RunKeeps(Acknowledge(Run(NewState(trusted), steps), q), more);
    RepeatAnswered(Run(NewState(trusted), steps), Run(Acknowledge(Run(NewState(trusted), steps), q), more), q, other);
  }

  /** The operation belongs to `q`, and only `q` is answered under it. */
  predicate Repeats(t: State, q: Request, other: Request) {
    && Answer(t, q).Accepted? && Answer(t, q).receipt.request == q
    && Acknowledge(t, other) == t && (other != q ==> Answer(t, other).Rejected?)
  }

  lemma FindsOwnRow(s: State, t: State, q: Request)
    requires IsNew(s, q) && KeysHold(t.rows) && Grows(Acknowledge(s, q), t)
    ensures |s.rows| < |t.rows| && FindOperation(t.rows, q.operation) == |s.rows| && t.rows[|s.rows|].request == q
  {
    NewRow(s, q);
    assert t.rows[|s.rows|].request == Acknowledge(s, q).rows[|s.rows|].request;
  }

  /** Its arguments stay acceptable: manifests and trust stay. */
  lemma PrecheckStays(s: State, t: State, q: Request)
    requires HeadHolds(s) && HeadHolds(t) && Precheck(s, q).None? && s.trusted == t.trusted && |s.manifests| <= |t.manifests|
    requires forall i :: 0 <= i < |s.manifests| ==> t.manifests[i] == s.manifests[i]
    ensures Precheck(t, q).None?
  {
    FindsManifest(s, q.revision);
    FindsManifest(t, q.revision);
  }

  lemma RepeatAnswered(s: State, t: State, q: Request, other: Request)
    requires Inv(s) && IsNew(s, q) && Inv(t) && Grows(Acknowledge(s, q), t) && other.operation == q.operation
    ensures Repeats(t, q, other)
  {
    FindsOwnRow(s, t, q);
    PrecheckStays(s, t, q);
  }

  // ---------------------------------------------------------------- the service as it changes its rows

  class SourceService {
    const trusted: set<Consumer>
    var revisions: nat
    var fences: nat
    var manifests: seq<Manifest>
    var head: Head
    var rows: seq<Row>

    ghost function View(): State
      reads this
    {
      State(trusted, revisions, fences, manifests, head, rows)
    }

    constructor (trusted: set<Consumer>)
      ensures View() == NewState(trusted)
    {
      this.trusted, revisions, fences, manifests, head, rows := trusted, 0, 0, [], Head(0, None, 0), [];
    }

    /** `_record_source_change`; with no outbox to announce it, it is rolled back. */
    method RecordSourceChange(hash: string, outbox: bool) returns (revision: Option<nat>)
      modifies this
      ensures View() == if outbox then Apply(old(View()), ChangeStep(hash)) else old(View())
      ensures revision == if outbox then Some(old(revisions) + 1) else None
    {
      if !outbox {
        return None;
      }
      revisions, fences := revisions + 1, fences + 1;
      manifests := manifests + [Manifest(revisions, hash, fences)];
      head := Head(revisions, Some(hash), fences);
      return Some(revisions);
    }

    method LookUpOperation(operation: string) returns (found: nat)
      ensures found == FindOperation(rows, operation)
    {
      found := 0;
      while found < |rows| && rows[found].request.operation != operation
        invariant found <= |rows|
        invariant forall k :: 0 <= k < found ==> rows[k].request.operation != operation
      {
        found := found + 1;
      }
    }

    /** Marks the held rows of the discarded revision, and says whether there were any. */
    method DiscardRows(q: Request) returns (any: bool)
      modifies this`rows
      ensures rows == DiscardHeld(old(rows), q)
      ensures any <==> exists i :: 0 <= i < |old(rows)| && Affected(old(rows)[i], q)
    {
      any := false;
      for i := 0 to |rows|
        invariant |rows| == |old(rows)|
        invariant forall k :: 0 <= k < i ==> rows[k] == DiscardHeld(old(rows), q)[k]
        invariant forall k :: i <= k < |rows| ==> rows[k] == old(rows)[k]
        invariant any <==> exists k :: 0 <= k < i && Affected(old(rows)[k], q)
      {
        if Affected(rows[i], q) {
          rows := rows[i := rows[i].(state := Discarded)];
          any := true;
        }
      }
    }

    method AcknowledgeConsumption(q: Request) returns (result: Result)
      modifies this
      ensures View() == Apply(old(View()), AcknowledgeStep(q))
      ensures result == Answer(old(View()), q)
    {
      var error := Precheck(State(trusted, revisions, fences, manifests, head, rows), q);
      if error.Some? {
        return Rejected(error.value);
      }
      var found := LookUpOperation(q.operation);
      if found < |rows| {
        return if rows[found].request == q then Accepted(rows[found]) else Rejected(OperationConflict);
      }
      if q.purpose.Release? && !AtHead(head, q) {
        return Rejected(SourceChanged);
      }
      if HasPurpose(rows, q.consumer, q.revision, q.purpose) {
        return Rejected(AlreadyAcknowledged);
      }
      if q.purpose.Discard? {
        var saved := rows;
        var any := DiscardRows(q);
        if !any {
          rows := saved;
          return Rejected(NotHeld);
        }
      } else if !q.purpose.Stage? && !HoldsPurpose(rows, q.consumer, q.revision, Stage) {
        return Rejected(NotHeld);
      }
      var row := Row(q, if q.purpose.Discard? then Discarded else Held);
      rows := rows + [row];
      return Accepted(row);
    }
  }
}

/**
 Retention of backups (app/backup/worker.py:474-489, 669-927): a sweep first retries unfinished
 deletions, then deletes old restorable backups beyond the newest `keepLast`.

 A sweep runs alone (it holds its task lease) but backups are created, complete and
 fail, restores start and end, and the sweep may die between any two of its
 transactions. A failed execution gets a cleanup even when the backup could not be
 marked failed, and such a backup is still being created: a later execution may
 complete it. An execution can also fail after the commit that completed its backup.
*/
module Retention {
  import opened Options

  /**
   A backup that has completed; `sets` lists them in order of completion. One whose
   execution fails right after the commit that completed it can still be marked failed.
  */
  datatype BackupSet = BackupSet(completedAt: int, purged: bool, failed: bool) {
    predicate Usable() { !purged && !failed }
  }

  /** The set a cleanup row is about: by its position once completed, by its name before. */
  datatype Subject = Complete(i: nat) | Named(name: string)
  datatype CleanupStatus = Pending | Deleting | Failed | Done
  datatype Cleanup = Cleanup(subject: Subject, status: CleanupStatus, attempts: nat, retryAt: Option<int>)

  /** Where the sweep stands. `chosen` is a candidate that has passed the checks and gets its cleanup next. */
  datatype Sweep =
    | Idle
    | Retrying(due: seq<nat>, budget: nat, now: int, keepLast: nat, cutoff: int)
    | Purging(queue: seq<nat>, budget: nat, now: int, remaining: nat, chosen: Option<nat>)

  /** `creating` are the sets that can still complete, `early` those marked purged before they did. */
  datatype State = State(
    sets: seq<BackupSet>, cleanups: seq<Cleanup>, sweep: Sweep, referenced: set<nat>, creating: set<string>, early: set<string>)

  /** What became of a deletion; a crash ends the sweep before or after the row is marked. */
  datatype Outcome = Purged | Refused | Crashed(marked: bool)

  const RETRY_BASE: int := 300

  predicate Unfinished(c: Cleanup) {
    !c.status.Done?
  }

  // ---------------------------------------------------------------- reading the tables

  /** How many sets of `[lo, hi)` are still restorable. */
  function Unpurged(sets: seq<BackupSet>, lo: nat, hi: nat): nat
    requires hi <= |sets|
    decreases hi
  {
    if hi <= lo then 0 else Unpurged(sets, lo, hi - 1) + if sets[hi - 1].Usable() then 1 else 0
  }

  /** The restorable sets among the first `n`, newest first. */
  function Restorable(sets: seq<BackupSet>, n: nat): seq<nat>
    requires n <= |sets|
  {
    if n == 0 then [] else (if sets[n - 1].Usable() then [n - 1] else []) + Restorable(sets, n - 1)
  }

  /** The sets a sweep may delete, oldest first: beyond the newest `keep` restorable ones, and older than the cutoff. */
  function Candidates(sets: seq<BackupSet>, n: nat, keep: nat, cutoff: int): seq<nat>
    requires n <= |sets|
  {
    if n == 0 then []
    else Candidates(sets, n - 1, KeepBelow(sets[n - 1], keep), cutoff) +
         if sets[n - 1].Usable() && keep == 0 && sets[n - 1].completedAt < cutoff then [n - 1] else []
  }

  /** How many of the sets before this one are still among the newest `keep` restorable ones. */
  function KeepBelow(last: BackupSet, keep: nat): nat {
    if !last.Usable() || keep == 0 then keep else keep - 1
  }

  predicate IsDue(c: Cleanup, now: int) {
    Unfinished(c) && (c.retryAt.None? || c.retryAt.value <= now)
  }

  /** Unfinished cleanups whose backoff has passed, in order of creation. */
  function DueCleanups(cleanups: seq<Cleanup>, n: nat, now: int): (due: seq<nat>)
    requires n <= |cleanups|
    ensures forall k :: 0 <= k < |due| ==> due[k] < n && IsDue(cleanups[due[k]], now)
    ensures Ascending(due, n)
  {
    if n == 0 then [] else DueCleanups(cleanups, n - 1, now) + if IsDue(cleanups[n - 1], now) then [n - 1] else []
  }

  predicate HasUnfinished(cleanups: seq<Cleanup>, subject: Subject) {
    exists k :: 0 <= k < |cleanups| && cleanups[k].subject == subject && Unfinished(cleanups[k])
  }

  // ---------------------------------------------------------------- transitions

  /** `_process_cleanup_target` on row `k`. */
  function Process(s: State, k: nat, now: int, outcome: Outcome): State
    requires k < |s.cleanups|
  {
    var c := s.cleanups[k];
    match outcome
    case Crashed(false) => s
    case Crashed(true) => s.(cleanups := s.cleanups[k := c.(status := Deleting, attempts := c.attempts + 1)])
    case Refused =>
      s.(cleanups := s.cleanups[k := Cleanup(c.subject, Failed, c.attempts + 1, Some(now + RETRY_BASE * (c.attempts + 1)))])
    case Purged =>
      s.(cleanups := s.cleanups[k := c.(status := Done, attempts := c.attempts + 1)],
         sets := if c.subject.Complete? && c.subject.i < |s.sets| then s.sets[c.subject.i := s.sets[c.subject.i].(purged := true)] else s.sets,
         early := if c.subject.Named? then s.early + {c.subject.name} else s.early)
  }

  /** The next transaction of the running sweep. */
  function Next(s: State, outcome: Outcome): State {
    match s.sweep
    case Idle => s
    case Retrying(due, budget, now, keepLast, cutoff) =>
      if due == [] || budget == 0 then
        s.(sweep := Purging(Candidates(s.sets, |s.sets|, keepLast, cutoff), budget, now, |Restorable(s.sets, |s.sets|)|, None))
      else if due[0] >= |s.cleanups| then s
      else Process(s, due[0], now, outcome).(sweep := if outcome.Crashed? then Idle else Retrying(due[1..], budget - 1, now, keepLast, cutoff))
    case Purging(queue, budget, now, remaining, chosen) =>
      if chosen.Some? then
        var created := s.(cleanups := s.cleanups + [Cleanup(Complete(chosen.value), Pending, 0, None)]);
        Process(created, |s.cleanups|, now, outcome).(sweep :=
          if outcome.Crashed? then Idle
          else Purging(queue, budget, now, if outcome.Purged? && remaining > 0 then remaining - 1 else remaining, None))
      else if queue == [] || budget == 0 then s.(sweep := Idle)
      else if queue[0] in s.referenced || remaining <= 1 || HasUnfinished(s.cleanups, Complete(queue[0])) then
        s.(sweep := Purging(queue[1..], budget, now, remaining, None))
      else s.(sweep := Purging(queue[1..], budget - 1, now, remaining, Some(queue[0])))
  }

  function Begin(s: State, now: int, keepLast: nat, cutoff: int, limit: nat): State {
    s.(sweep := Retrying(DueCleanups(s.cleanups, |s.cleanups|, now), limit, now, keepLast, cutoff))
  }

  datatype Step =
    | CreateStep(name: string)
    | CompleteStep(name: string, completedAt: int)
    | FailStep(name: string, marked: bool, recorded: bool)
    | LateFailStep(marked: bool)
    | ReferenceStep(referenced: set<nat>)
    | BeginStep(now: int, keepLast: nat, cutoff: int, limit: nat)
    | NextStep(outcome: Outcome)
    | DieStep

  predicate HasRow(cleanups: seq<Cleanup>, subject: Subject) {
    exists k :: 0 <= k < |cleanups| && cleanups[k].subject == subject
  }

  /** The rows of a set that completes are its rows still. */
  function Retargeted(cleanups: seq<Cleanup>, name: string, i: nat): (later: seq<Cleanup>)
    ensures |later| == |cleanups|
    ensures forall k :: 0 <= k < |cleanups| ==>
      later[k] == if cleanups[k].subject == Named(name) then cleanups[k].(subject := Complete(i)) else cleanups[k]
  {
    seq(|cleanups|, k requires 0 <= k < |cleanups| =>
      if cleanups[k].subject == Named(name) then cleanups[k].(subject := Complete(i)) else cleanups[k])
  }

  /** `_ensure_cleanup_target`: one unfinished row a set, and none without a recorded reference. */
  function Ensured(cleanups: seq<Cleanup>, subject: Subject): seq<Cleanup> {
    if HasUnfinished(cleanups, subject) then cleanups else cleanups + [Cleanup(subject, Pending, 0, None)]
  }

  function Completed(s: State, name: string, completedAt: int): State {
    s.(sets := s.sets + [BackupSet(completedAt, name in s.early, false)], cleanups := Retargeted(s.cleanups, name, |s.sets|),
       creating := s.creating - {name}, early := s.early - {name})
  }

  /**
   Names are fresh. A failure takes the set out of creation only if it is marked;
   a late failure is one after the commit that completed the newest set. Between any
   two transactions the sweep can die.
  */
  function Apply(s: State, step: Step): State {
    match step
    case CreateStep(name) =>
      if HasRow(s.cleanups, Named(name)) || name in s.early then s else s.(creating := s.creating + {name})
    case CompleteStep(name, completedAt) => if name in s.creating then Completed(s, name, completedAt) else s
    case FailStep(name, marked, recorded) =>
      if name !in s.creating then s
      else s.(creating := if marked then s.creating - {name} else s.creating,
              cleanups := if recorded then Ensured(s.cleanups, Named(name)) else s.cleanups)
    case LateFailStep(marked) =>
      if s.sets == [] then s
      else
        var last := |s.sets| - 1;
        s.(sets := if marked then s.sets[last := s.sets[last].(failed := true)] else s.sets,
           cleanups := Ensured(s.cleanups, Complete(last)))
    case ReferenceStep(referenced) => s.(referenced := referenced)
    case BeginStep(now, keepLast, cutoff, limit) => if s.sweep.Idle? then Begin(s, now, keepLast, cutoff, limit) else s
    case NextStep(outcome) => Next(s, outcome)
    case DieStep => s.(sweep := Idle)
  }

  /** Completion times increase, and every sweep keeps at least `k`. */
  predicate Legal(s: State, step: Step, k: nat) {
    && (step.CompleteStep? && s.sets != [] ==> step.completedAt > s.sets[|s.sets| - 1].completedAt)
    && (step.BeginStep? ==> step.keepLast >= k)
  }

  predicate LegalRun(s: State, steps: seq<Step>, k: nat)
    decreases |steps|
  {
    steps == [] || (Legal(s, steps[0], k) && LegalRun(Apply(s, steps[0]), steps[1..], k))
  }

  /** Sets that are gone or may go: purged, with an unfinished cleanup, or in the hands of a sweep. */
  predicate Leaving(s: State, i: nat) {
    && i < |s.sets| && !s.sets[i].failed
    && (s.sets[i].purged || HasUnfinished(s.cleanups, Complete(i)) || InHand(s.sweep, i))
  }

  predicate InHand(sweep: Sweep, i: nat) {
    sweep.Purging? && (sweep.chosen == Some(i) || (sweep.budget > 0 && i in sweep.queue))
  }

  /** `k` restorable sets are newer than set `i`. */
  predicate Covered(sets: seq<BackupSet>, i: nat, k: nat) {
    i < |sets| && Unpurged(sets, i + 1, |sets|) >= k
  }

  /**
   No set completes that has a cleanup from a failed execution and stays complete; and
   none that is marked failed after it completed was counted on: what is leaving has
   `k` newer restorable sets without it.
  */
  predicate Clean(s: State, step: Step, k: nat) {
    && (step.CompleteStep? && step.name in s.creating ==> !HasRow(s.cleanups, Named(step.name)))
    && (step.LateFailStep? && s.sets != [] && !s.sets[|s.sets| - 1].failed ==>
          step.marked && forall i | 0 <= i < |s.sets| - 1 && Leaving(s, i) :: Covered(s.sets, i, k + 1))
  }

  predicate CleanRun(s: State, steps: seq<Step>, k: nat)
    decreases |steps|
  {
    steps == [] || (Clean(s, steps[0], k) && CleanRun(Apply(s, steps[0]), steps[1..], k))
  }

  function Run(s: State, steps: seq<Step>): State
    decreases |steps|
  {
    if steps == [] then s else Run(Apply(s, steps[0]), steps[1..])
  }

  const EMPTY: State := State([], [], Idle, {}, {}, {})

  // ---------------------------------------------------------------- counting

  lemma {:induction false} UnpurgedSplits(sets: seq<BackupSet>, lo: nat, mid: nat, hi: nat)
    requires lo <= mid <= hi <= |sets|
    ensures Unpurged(sets, lo, hi) == Unpurged(sets, lo, mid) + Unpurged(sets, mid, hi)
    decreases hi
  {
    if mid < hi { UnpurgedSplits(sets, lo, mid, hi - 1); }
  }

  lemma {:induction false} UnpurgedFrame(sets: seq<BackupSet>, later: seq<BackupSet>, lo: nat, hi: nat)
    requires hi <= |sets| && hi <= |later|
    requires forall j :: lo <= j < hi ==> sets[j].Usable() == later[j].Usable()
    ensures Unpurged(sets, lo, hi) == Unpurged(later, lo, hi)
    decreases hi
  {
    if lo < hi { UnpurgedFrame(sets, later, lo, hi - 1); }
  }

  /** Purging one set removes it from the counts that include it, and from no other. */
  lemma PurgeCounts(sets: seq<BackupSet>, i: nat, lo: nat, hi: nat)
    requires i < |sets| && hi <= |sets|
    ensures var later := sets[i := sets[i].(purged := true)];
      Unpurged(later, lo, hi) == Unpurged(sets, lo, hi) - if lo <= i < hi && sets[i].Usable() then 1 else 0
  {
    var later := sets[i := sets[i].(purged := true)];
    if lo <= i < hi {
      UnpurgedSplits(sets, lo, i, hi);
      UnpurgedSplits(later, lo, i, hi);
      UnpurgedSplits(sets, i, i + 1, hi);
      UnpurgedSplits(later, i, i + 1, hi);
      UnpurgedFrame(sets, later, lo, i);
      UnpurgedFrame(sets, later, i + 1, hi);
    } else {
      UnpurgedFrame(sets, later, lo, hi);
    }
  }

  lemma {:induction false} RestorableCounts(sets: seq<BackupSet>, n: nat)
    requires n <= |sets|
    ensures |Restorable(sets, n)| == Unpurged(sets, 0, n)
    ensures forall p :: 0 <= p < |Restorable(sets, n)| ==>
      var i := Restorable(sets, n)[p]; i < n && sets[i].Usable() && Unpurged(sets, i + 1, n) == p
  {
    if n > 0 {
      RestorableCounts(sets, n - 1);
      var rest := Restorable(sets, n - 1);
      forall p | 0 <= p < |Restorable(sets, n)|
        ensures var i := Restorable(sets, n)[p]; i < n && sets[i].Usable() && Unpurged(sets, i + 1, n) == p
      {
        if sets[n - 1].Usable() && p > 0 { assert Restorable(sets, n)[p] == rest[p - 1]; }
      }
    }
  }

  /** The `k` sets that completed last among the restorable ones: fewer than `k` restorable sets are newer. */
  predicate Newest(sets: seq<BackupSet>, i: nat, k: nat)
    requires i < |sets|
  {
    Unpurged(sets, i + 1, |sets|) < k
  }

  predicate Ascending(queue: seq<nat>, n: nat) {
    && (forall p :: 0 <= p < |queue| ==> queue[p] < n)
    && (forall p, q :: 0 <= p < q < |queue| ==> queue[p] < queue[q])
  }

  lemma {:induction false} CandidatesBelow(sets: seq<BackupSet>, n: nat, keep: nat, cutoff: int)
    requires n <= |sets|
    ensures Ascending(Candidates(sets, n, keep, cutoff), n)
  {
    if n > 0 {
      var keepBelow := KeepBelow(sets[n - 1], keep);
      CandidatesBelow(sets, n - 1, keepBelow, cutoff);
    }
  }

  /** A candidate is restorable, old enough, and has `keep` newer restorable sets; and every such set is a candidate. */
  lemma {:induction false} CandidatesExactly(sets: seq<BackupSet>, n: nat, keep: nat, cutoff: int, i: nat)
    requires n <= |sets|
    ensures i in Candidates(sets, n, keep, cutoff) <==>
      i < n && sets[i].Usable() && sets[i].completedAt < cutoff && Unpurged(sets, i + 1, n) >= keep
  {
    CandidatesBelow(sets, n, keep, cutoff);
    if i < n {
      var keepBelow := KeepBelow(sets[n - 1], keep);
      var below := Candidates(sets, n - 1, keepBelow, cutoff);
      if i + 1 < n {
        CandidatesExactly(sets, n - 1, keepBelow, cutoff, i);
      } else {
        CandidatesBelow(sets, n - 1, keepBelow, cutoff);
        assert i !in below;
      }
    }
  }

  // ---------------------------------------------------------------- the invariant

  predicate SetsHold(sets: seq<BackupSet>, k: nat) {
    && (forall i :: 0 <= i < |sets| && sets[i].purged && !sets[i].failed ==> Covered(sets, i, k))
    && (forall i, j :: 0 <= i < j < |sets| ==> sets[i].completedAt < sets[j].completedAt)
  }

  /** The set may go: it has failed, or is covered. */
  predicate MayGo(sets: seq<BackupSet>, i: nat, k: nat) {
    i < |sets| && (sets[i].failed || Covered(sets, i, k))
  }

  predicate CleanupsHold(sets: seq<BackupSet>, cleanups: seq<Cleanup>, k: nat) {
    forall c :: 0 <= c < |cleanups| && cleanups[c].subject.Complete? && Unfinished(cleanups[c]) ==> MayGo(sets, cleanups[c].subject.i, k)
  }

  /** The sets a sweep still has in hand may go, and it has counted at least `k` more. */
  predicate HandHolds(sets: seq<BackupSet>, sweep: Sweep, k: nat)
    requires sweep.Purging?
  {
    && (sweep.chosen.Some? ==> MayGo(sets, sweep.chosen.value, k))
    && (sweep.budget > 0 ==> forall p :: 0 <= p < |sweep.queue| ==> MayGo(sets, sweep.queue[p], k))
    && (sweep.chosen.Some? || sweep.queue != [] ==> sweep.remaining >= |sweep.queue| + (if sweep.chosen.Some? then 1 else 0) + k)
  }

  predicate SweepHolds(s: State, k: nat) {
    match s.sweep
    case Idle => true
    case Retrying(due, budget, now, keepLast, cutoff) => keepLast >= k
    case Purging(queue, budget, now, remaining, chosen) => HandHolds(s.sets, s.sweep, k)
  }

  /** The cleanups still to be retried are unfinished, and each is there once. */
  predicate DueHolds(s: State) {
    s.sweep.Retrying? ==>
      Ascending(s.sweep.due, |s.cleanups|) && forall p :: 0 <= p < |s.sweep.due| ==> Unfinished(s.cleanups[s.sweep.due[p]])
  }

  /** A set purged before it completed has a row of its own, and only such rows are done. */
  predicate EarlyHolds(cleanups: seq<Cleanup>, early: set<string>) {
    && (forall name | name in early :: HasRow(cleanups, Named(name)))
    && (forall c :: 0 <= c < |cleanups| && cleanups[c].subject.Named? && !Unfinished(cleanups[c]) ==> cleanups[c].subject.name in early)
  }

  predicate Inv(s: State, k: nat) {
    SetsHold(s.sets, k) && CleanupsHold(s.sets, s.cleanups, k) && SweepHolds(s, k) && DueHolds(s) && EarlyHolds(s.cleanups, s.early)
  }

  /** Purging a set that may go leaves every covered set covered: above it there are still as many. */
  lemma PurgeKeepsCover(sets: seq<BackupSet>, i: nat, k: nat, j: nat)
    requires MayGo(sets, i, k) && Covered(sets, j, k)
    ensures Covered(sets[i := sets[i].(purged := true)], j, k)
  {
    var later := sets[i := sets[i].(purged := true)];
    PurgeCounts(sets, i, j + 1, |sets|);
    if j < i && !sets[i].failed {
      UnpurgedSplits(later, j + 1, i + 1, |sets|);
      UnpurgedFrame(sets, later, i + 1, |sets|);
    }
  }

  lemma PurgeKeepsMayGo(sets: seq<BackupSet>, i: nat, k: nat, j: nat)
    requires MayGo(sets, i, k) && MayGo(sets, j, k)
    ensures MayGo(sets[i := sets[i].(purged := true)], j, k)
  {
    if Covered(sets, j, k) { PurgeKeepsCover(sets, i, k, j); }
  }

  lemma PurgeKeeps(sets: seq<BackupSet>, cleanups: seq<Cleanup>, i: nat, k: nat)
    requires SetsHold(sets, k) && CleanupsHold(sets, cleanups, k) && MayGo(sets, i, k)
    ensures var later := sets[i := sets[i].(purged := true)]; SetsHold(later, k) && CleanupsHold(later, cleanups, k)
  {
    var later := sets[i := sets[i].(purged := true)];
    forall j | 0 <= j < |later| && later[j].purged && !later[j].failed ensures Covered(later, j, k) {
      PurgeKeepsCover(sets, i, k, j);
    }
    forall c | 0 <= c < |cleanups| && cleanups[c].subject.Complete? && Unfinished(cleanups[c]) ensures MayGo(later, cleanups[c].subject.i, k) {
      PurgeKeepsMayGo(sets, i, k, cleanups[c].subject.i);
    }
  }

  lemma PurgeKeepsHand(sets: seq<BackupSet>, sweep: Sweep, i: nat, k: nat)
    requires MayGo(sets, i, k) && sweep.Purging? && HandHolds(sets, sweep, k)
    ensures HandHolds(sets[i := sets[i].(purged := true)], sweep, k)
  {
    var later := sets[i := sets[i].(purged := true)];
    if sweep.chosen.Some? { PurgeKeepsMayGo(sets, i, k, sweep.chosen.value); }
    if sweep.budget > 0 {
      forall p | 0 <= p < |sweep.queue| ensures MayGo(later, sweep.queue[p], k) {
        PurgeKeepsMayGo(sets, i, k, sweep.queue[p]);
      }
    }
  }

  /** Rows that keep their subjects, and are not finished, keep what is known of the early ones. */
  lemma RowsStay(cleanups: seq<Cleanup>, later: seq<Cleanup>, early: set<string>)
    requires EarlyHolds(cleanups, early) && |cleanups| <= |later|
    requires forall c :: 0 <= c < |cleanups| ==> later[c].subject == cleanups[c].subject
    requires forall c :: 0 <= c < |later| && (c >= |cleanups| || later[c] != cleanups[c]) ==> Unfinished(later[c])
    ensures EarlyHolds(later, early)
  {
    forall name | name in early ensures HasRow(later, Named(name)) {
      var c :| 0 <= c < |cleanups| && cleanups[c].subject == Named(name);
      assert later[c].subject == Named(name);
    }
  }

  /** Processing a cleanup keeps sets and cleanups lawful, whatever the provider answers. */
  lemma ProcessKeeps(s: State, c: nat, now: int, outcome: Outcome, k: nat)
    requires SetsHold(s.sets, k) && CleanupsHold(s.sets, s.cleanups, k) && EarlyHolds(s.cleanups, s.early)
    requires c < |s.cleanups| && Unfinished(s.cleanups[c])
    ensures SetsHold(Process(s, c, now, outcome).sets, k)
    ensures CleanupsHold(Process(s, c, now, outcome).sets, Process(s, c, now, outcome).cleanups, k)
    ensures EarlyHolds(Process(s, c, now, outcome).cleanups, Process(s, c, now, outcome).early)
  {
    var t := Process(s, c, now, outcome);
    assert CleanupsHold(s.sets, t.cleanups, k);
    if outcome.Purged? {
      ProcessedEarly(s, c, now);
      if s.cleanups[c].subject.Complete? { PurgeKeeps(s.sets, t.cleanups, s.cleanups[c].subject.i, k); }
    } else {
      RowsStay(s.cleanups, t.cleanups, s.early);
    }
  }

  lemma ProcessedEarly(s: State, c: nat, now: int)
    requires EarlyHolds(s.cleanups, s.early) && c < |s.cleanups|
    ensures EarlyHolds(Process(s, c, now, Purged).cleanups, Process(s, c, now, Purged).early)
  {
    var t := Process(s, c, now, Purged);
    assert t.cleanups[c].subject == s.cleanups[c].subject;
    forall name | name in t.early ensures HasRow(t.cleanups, Named(name)) {
      if name in s.early {
        var d :| 0 <= d < |s.cleanups| && s.cleanups[d].subject == Named(name);
        assert t.cleanups[d].subject == Named(name);
      }
    }
  }

  /** Candidates are what exceeds the `keep` newest of the restorable sets. */
  lemma {:induction false} CandidatesFewer(sets: seq<BackupSet>, n: nat, keep: nat, cutoff: int)
    requires n <= |sets|
    ensures Candidates(sets, n, keep, cutoff) == [] || |Candidates(sets, n, keep, cutoff)| + keep <= Unpurged(sets, 0, n)
  {
    if n > 0 { CandidatesFewer(sets, n - 1, KeepBelow(sets[n - 1], keep), cutoff); }
  }

  lemma ListingHolds(sets: seq<BackupSet>, budget: nat, now: int, keepLast: nat, cutoff: int, k: nat)
    requires keepLast >= k
    ensures HandHolds(sets, Purging(Candidates(sets, |sets|, keepLast, cutoff), budget, now, |Restorable(sets, |sets|)|, None), k)
  {
    RestorableCounts(sets, |sets|);
    CandidatesBelow(sets, |sets|, keepLast, cutoff);
    CandidatesFewer(sets, |sets|, keepLast, cutoff);
    var queue := Candidates(sets, |sets|, keepLast, cutoff);
    forall p | 0 <= p < |queue| ensures MayGo(sets, queue[p], k) {
      CandidatesExactly(sets, |sets|, keepLast, cutoff, queue[p]);
    }
  }

  lemma PurgingKeeps(s: State, outcome: Outcome, k: nat)
    requires Inv(s, k) && s.sweep.Purging?
    ensures Inv(Next(s, outcome), k)
  {
    if s.sweep.chosen.Some? { ChosenKeeps(s, outcome, k); }
  }

  lemma ChosenKeeps(s: State, outcome: Outcome, k: nat)
    requires Inv(s, k) && s.sweep.Purging? && s.sweep.chosen.Some?
    ensures Inv(Next(s, outcome), k)
  {
    var i := s.sweep.chosen.value;
    var created := s.(cleanups := s.cleanups + [Cleanup(Complete(i), Pending, 0, None)]);
    RowsStay(s.cleanups, created.cleanups, s.early);
    ProcessKeeps(created, |s.cleanups|, s.sweep.now, outcome, k);
    PurgeKeepsHand(s.sets, s.sweep, i, k);
  }

  lemma RetryingKeeps(s: State, outcome: Outcome, k: nat)
    requires Inv(s, k) && s.sweep.Retrying?
    ensures Inv(Next(s, outcome), k)
  {
    if s.sweep.due == [] || s.sweep.budget == 0 {
      ListingHolds(s.sets, s.sweep.budget, s.sweep.now, s.sweep.keepLast, s.sweep.cutoff, k);
    } else {
      ProcessKeeps(s, s.sweep.due[0], s.sweep.now, outcome, k);
    }
  }

  lemma CoverGrows(sets: seq<BackupSet>, later: seq<BackupSet>, i: nat, k: nat)
    requires MayGo(sets, i, k) && sets <= later
    ensures MayGo(later, i, k) && (Covered(sets, i, k) ==> Covered(later, i, k))
  {
    UnpurgedFrame(sets, later, i + 1, |sets|);
    UnpurgedSplits(later, i + 1, |sets|, |later|);
  }

  lemma CompleteKeeps(s: State, name: string, completedAt: int, k: nat)
    requires Inv(s, k) && Legal(s, CompleteStep(name, completedAt), k) && Clean(s, CompleteStep(name, completedAt), k)
    requires name in s.creating
    ensures Inv(Completed(s, name, completedAt), k)
  {
    var t := Completed(s, name, completedAt);
    assert name !in s.early && t.cleanups == s.cleanups;
    forall i: nat | MayGo(s.sets, i, k) ensures MayGo(t.sets, i, k) && (Covered(s.sets, i, k) ==> Covered(t.sets, i, k)) {
      CoverGrows(s.sets, t.sets, i, k);
    }
  }

  /** Without the newest set, what had one more above it is still covered. */
  lemma FailedCounts(sets: seq<BackupSet>, i: nat, k: nat)
    requires i < |sets| - 1 && Covered(sets, i, k + 1)
    ensures Covered(sets[|sets| - 1 := sets[|sets| - 1].(failed := true)], i, k)
  {
    var last := |sets| - 1;
    UnpurgedFrame(sets, sets[last := sets[last].(failed := true)], i + 1, last);
  }

  lemma LateFailKeeps(s: State, marked: bool, k: nat)
    requires Inv(s, k) && k >= 1 && Clean(s, LateFailStep(marked), k)
    ensures Inv(Apply(s, LateFailStep(marked)), k)
  {
    var t := Apply(s, LateFailStep(marked));
    if s.sets != [] {
      RowsStay(s.cleanups, t.cleanups, s.early);
      var last := |s.sets| - 1;
      if !s.sets[last].failed {
        forall i | 0 <= i < last && Leaving(s, i) ensures Covered(t.sets, i, k) { FailedCounts(s.sets, i, k); }
        assert forall i :: 0 <= i <= last && Leaving(s, i) ==> MayGo(t.sets, i, k);
        LeavingMayGo(s, t, k);
      } else {
        assert t.sets == s.sets;
      }
    }
  }

  /** The invariant says of what is leaving that it may go. */
  lemma LeavingMayGo(s: State, t: State, k: nat)
    requires Inv(s, k) && |t.sets| == |s.sets| && t.sweep == s.sweep && t.early == s.early && EarlyHolds(t.cleanups, t.early)
    requires forall i :: 0 <= i < |s.sets| && Leaving(s, i) ==> MayGo(t.sets, i, k)
    requires forall i :: 0 <= i < |s.sets| ==> t.sets[i].completedAt == s.sets[i].completedAt && t.sets[i].purged == s.sets[i].purged
    requires forall i :: 0 <= i < |s.sets| && s.sets[i].failed ==> t.sets[i].failed
    requires s.cleanups <= t.cleanups
    requires forall c :: |s.cleanups| <= c < |t.cleanups| && t.cleanups[c].subject.Complete? ==> MayGo(t.sets, t.cleanups[c].subject.i, k)
    ensures Inv(t, k)
  {
    forall i | 0 <= i < |t.sets| && t.sets[i].purged && !t.sets[i].failed ensures Covered(t.sets, i, k) {
      assert Leaving(s, i);
    }
    forall c | 0 <= c < |t.cleanups| && t.cleanups[c].subject.Complete? && Unfinished(t.cleanups[c]) ensures MayGo(t.sets, t.cleanups[c].subject.i, k) {
      if c < |s.cleanups| && !s.sets[s.cleanups[c].subject.i].failed { assert Leaving(s, s.cleanups[c].subject.i); }
    }
    if s.sweep.Purging? {
      forall i: nat | MayGo(s.sets, i, k) && InHand(s.sweep, i) ensures MayGo(t.sets, i, k) {
        if !s.sets[i].failed { assert Leaving(s, i); }
      }
    }
  }

  lemma StepKeeps(s: State, step: Step, k: nat)
    requires Inv(s, k) && k >= 1 && Legal(s, step, k) && Clean(s, step, k)
    ensures Inv(Apply(s, step), k)
  {
    match step
    case CreateStep(name) =>
    case CompleteStep(name, completedAt) => if name in s.creating { CompleteKeeps(s, name, completedAt, k); }
    case FailStep(name, marked, recorded) => RowsStay(s.cleanups, Apply(s, step).cleanups, s.early);
    case LateFailStep(marked) => LateFailKeeps(s, marked, k);
    case ReferenceStep(referenced) =>
    case BeginStep(now, keepLast, cutoff, limit) =>
    case NextStep(outcome) =>
      if s.sweep.Retrying? { RetryingKeeps(s, outcome, k); }
      if s.sweep.Purging? { PurgingKeeps(s, outcome, k); }
    case DieStep =>
  }

  // ---------------------------------------------------------------- what retention promises

  /** The completed backups that have not failed. */
  function Lasting(sets: seq<BackupSet>, n: nat): nat
    requires n <= |sets|
  {
    if n == 0 then 0 else Lasting(sets, n - 1) + if sets[n - 1].failed then 0 else 1
  }

  lemma {:induction false} AllLasting(sets: seq<BackupSet>, n: nat)
    requires n <= |sets|
    requires forall i :: 0 <= i < n && sets[i].purged ==> sets[i].failed
    ensures Unpurged(sets, 0, n) == Lasting(sets, n)
  {
    if n > 0 { AllLasting(sets, n - 1); }
  }

  lemma FloorHolds(sets: seq<BackupSet>, k: nat)
    requires SetsHold(sets, k)
    ensures Unpurged(sets, 0, |sets|) >= k || Unpurged(sets, 0, |sets|) == Lasting(sets, |sets|)
  {
    if i :| 0 <= i < |sets| && sets[i].purged && !sets[i].failed {
      assert Covered(sets, i, k);
      UnpurgedSplits(sets, 0, i + 1, |sets|);
    } else {
      AllLasting(sets, |sets|);
    }
  }

  predicate Descending(sets: seq<BackupSet>, listed: seq<nat>) {
    && (forall p :: 0 <= p < |listed| ==> listed[p] < |sets|)
    && (forall p, q :: 0 <= p < q < |listed| ==> sets[listed[p]].completedAt > sets[listed[q]].completedAt)
  }

  lemma RestorableDescends(sets: seq<BackupSet>, k: nat)
    requires SetsHold(sets, k)
    ensures Descending(sets, Restorable(sets, |sets|))
  {
    var listed := Restorable(sets, |sets|);
    RestorableCounts(sets, |sets|);
    forall p, q | 0 <= p < q < |listed| ensures listed[p] > listed[q] {
      if listed[p] <= listed[q] { UnpurgedSplits(sets, listed[p] + 1, listed[q] + 1, |sets|); }
    }
  }

  /**
   A good state, for retention that keeps `k`: the newest `k` backups are not purged,
   restorable ones are not fewer than `k` or all that completed and did not fail, they
   are listed newest first, and the guard that spares the last restorable backup is
   not the one that decides.
  */
  predicate Safe(s: State, k: nat) {
    && (forall i :: 0 <= i < |s.sets| && Newest(s.sets, i, k) && !s.sets[i].failed ==> !s.sets[i].purged)
    && (Unpurged(s.sets, 0, |s.sets|) >= k || Unpurged(s.sets, 0, |s.sets|) == Lasting(s.sets, |s.sets|))
    && |Restorable(s.sets, |s.sets|)| == Unpurged(s.sets, 0, |s.sets|)
    && Descending(s.sets, Restorable(s.sets, |s.sets|))
    && (s.sweep.Purging? && (s.sweep.queue != [] || s.sweep.chosen.Some?) ==> s.sweep.remaining > 1)
  }

  /** The promise: good now, and whatever is done from here on that is clean, good for ever. */
  ghost predicate Promised(s: State, k: nat) {
    forall more :: LegalRun(s, more, k) && CleanRun(s, more, k) ==> Safe(Run(s, more), k)
  }

  ghost predicate AlwaysPromised(s: State, steps: seq<Step>, k: nat)
    decreases |steps|
  {
    Promised(s, k) && (steps != [] ==> AlwaysPromised(Apply(s, steps[0]), steps[1..], k))
  }

  lemma InvIsSafe(s: State, k: nat)
    requires Inv(s, k) && k >= 1
    ensures Safe(s, k)
  {
    forall i | 0 <= i < |s.sets| && s.sets[i].purged && !s.sets[i].failed ensures !Newest(s.sets, i, k) {
      assert Covered(s.sets, i, k);
    }
    FloorHolds(s.sets, k);
    RestorableCounts(s.sets, |s.sets|);
    RestorableDescends(s.sets, k);
  }

  lemma {:induction false} CleanRunKeeps(s: State, steps: seq<Step>, k: nat)
    requires Inv(s, k) && k >= 1 && LegalRun(s, steps, k) && CleanRun(s, steps, k)
    ensures Inv(Run(s, steps), k)
    decreases |steps|
  {
    if steps != [] {
      StepKeeps(s, steps[0], k);
      CleanRunKeeps(Apply(s, steps[0]), steps[1..], k);
    }
  }

  lemma InvIsPromise(s: State, k: nat)
    requires Inv(s, k) && k >= 1
    ensures Promised(s, k)
  {
    forall more | LegalRun(s, more, k) && CleanRun(s, more, k) ensures Safe(Run(s, more), k) {
      CleanRunKeeps(s, more, k);
      InvIsSafe(Run(s, more), k);
    }
  }

  // ---------------------------------------------------------------- how the promise is lost

  lemma FirstThen(s: State, step: Step, rest: seq<Step>, k: nat)
    requires Legal(s, step, k) && LegalRun(Apply(s, step), rest, k)
    ensures LegalRun(s, [step] + rest, k) && Run(s, [step] + rest) == Run(Apply(s, step), rest)
    ensures CleanRun(s, [step] + rest, k) <==> Clean(s, step, k) && CleanRun(Apply(s, step), rest, k)
  {
    assert ([step] + rest)[1..] == rest;
  }

  lemma UnsafeNow(s: State, k: nat)
    requires !Safe(s, k)
    ensures !Promised(s, k)
  {
    assert Run(s, []) == s && LegalRun(s, [], k) && CleanRun(s, [], k);
  }

  /** A promise that a clean step loses was not one. */
  lemma LostLater(s: State, step: Step, k: nat)
    requires Legal(s, step, k) && Clean(s, step, k) && !Promised(Apply(s, step), k)
    ensures !Promised(s, k)
  {
    var more :| LegalRun(Apply(s, step), more, k) && CleanRun(Apply(s, step), more, k) && !Safe(Run(Apply(s, step), more), k);
    FirstThen(s, step, more, k);
    assert !Safe(Run(s, [step] + more), k);
  }

  lemma {:induction false} PurgedCounts(sets: seq<BackupSet>, i: nat, j: nat, k: nat)
    requires i < |sets| && j < |sets| && Newest(sets, i, k)
    ensures Newest(sets[j := sets[j].(purged := true)], i, k)
  {
    PurgeCounts(sets, j, i + 1, |sets|);
  }

  /** The newest sets are lost at once when one of them is purged. */
  lemma PurgedIsUnsafe(s: State, i: nat, k: nat)
    requires i < |s.sets| && Newest(s.sets, i, k) && !s.sets[i].failed && s.sets[i].purged
    ensures !Promised(s, k)
  {
    UnsafeNow(s, k);
  }

  lemma {:induction false} DueIncludes(cleanups: seq<Cleanup>, n: nat, now: int, c: nat)
    requires c < n <= |cleanups| && IsDue(cleanups[c], now)
    ensures c in DueCleanups(cleanups, n, now)
  {
    if c < n - 1 { DueIncludes(cleanups, n - 1, now, c); }
  }

  /** A retrying sweep whose deletions all succeed comes to the row of a newest set. */
  lemma {:induction false} RetryDooms(s: State, c: nat, i: nat, k: nat)
    requires s.sweep.Retrying? && c in s.sweep.due && |s.sweep.due| <= s.sweep.budget
    requires forall p :: 0 <= p < |s.sweep.due| ==> s.sweep.due[p] < |s.cleanups|
    requires s.cleanups[c].subject == Complete(i) && i < |s.sets| && Newest(s.sets, i, k) && !s.sets[i].failed
    ensures !Promised(s, k)
    decreases |s.sweep.due|
  {
    var t := Next(s, Purged);
    var subject := s.cleanups[s.sweep.due[0]].subject;
    if subject.Complete? && subject.i < |s.sets| { PurgedCounts(s.sets, i, subject.i, k); }
    if s.sweep.due[0] == c {
      PurgedIsUnsafe(t, i, k);
    } else {
      RetryDooms(t, c, i, k);
    }
    LostLater(s, NextStep(Purged), k);
  }

  /** When the row is due, counting from now. */
  function DueTime(c: Cleanup): int {
    if c.retryAt.Some? then c.retryAt.value else 0
  }

  /** An unfinished cleanup of a newest set dooms it: the next sweep retries it and looks at nothing else. */
  lemma RowDooms(s: State, c: nat, i: nat, k: nat)
    requires c < |s.cleanups| && Unfinished(s.cleanups[c]) && s.cleanups[c].subject == Complete(i)
    requires i < |s.sets| && Newest(s.sets, i, k) && !s.sets[i].failed
    ensures !Promised(s, k)
  {
    var idle, now := Apply(s, DieStep), DueTime(s.cleanups[c]);
    var begin := BeginStep(now, k, 0, |DueCleanups(s.cleanups, |s.cleanups|, now)|);
    DueIncludes(s.cleanups, |s.cleanups|, now, c);
    RetryDooms(Apply(idle, begin), c, i, k);
    LostLater(idle, begin, k);
    LostLater(s, DieStep, k);
  }

  /** So does being in the hands of a sweep that can still afford it. */
  lemma {:induction false} HandDooms(s: State, i: nat, k: nat)
    requires InHand(s.sweep, i) && s.sweep.remaining > 1
    requires i < |s.sets| && Newest(s.sets, i, k) && !s.sets[i].failed
    ensures !Promised(s, k)
    decreases |s.sweep.queue|, if s.sweep.chosen.Some? then 1 else 0
  {
    if s.sweep.chosen == Some(i) {
      PurgedCounts(s.sets, i, i, k);
      PurgedIsUnsafe(Next(s, Purged), i, k);
      LostLater(s, NextStep(Purged), k);
    } else if s.sweep.chosen.Some? {
      HandDooms(Next(s, Refused), i, k);
      LostLater(s, NextStep(Refused), k);
    } else if s.sweep.queue[0] == i && HasUnfinished(s.cleanups, Complete(i)) {
      var c :| 0 <= c < |s.cleanups| && s.cleanups[c].subject == Complete(i) && Unfinished(s.cleanups[c]);
      RowDooms(s, c, i, k);
    } else {
      var refer := ReferenceStep(if s.sweep.queue[0] == i then {} else {s.sweep.queue[0]});
      HandDooms(Next(Apply(s, refer), Refused), i, k);
      LostLater(Apply(s, refer), NextStep(Refused), k);
      LostLater(s, refer, k);
    }
  }

  /** Whatever is leaving and among the newest loses the promise. */
  lemma LeavingDooms(s: State, i: nat, k: nat)
    requires Leaving(s, i) && Newest(s.sets, i, k)
    requires InHand(s.sweep, i) ==> s.sweep.remaining > 1
    ensures !Promised(s, k)
  {
    if s.sets[i].purged {
      PurgedIsUnsafe(s, i, k);
    } else if HasUnfinished(s.cleanups, Complete(i)) {
      var c :| 0 <= c < |s.cleanups| && s.cleanups[c].subject == Complete(i) && Unfinished(s.cleanups[c]);
      RowDooms(s, c, i, k);
    } else {
      HandDooms(s, i, k);
    }
  }

  lemma EnsuredHas(cleanups: seq<Cleanup>, subject: Subject)
    ensures HasUnfinished(Ensured(cleanups, subject), subject)
    ensures cleanups <= Ensured(cleanups, subject)
  {
    if !HasUnfinished(cleanups, subject) {
      assert Ensured(cleanups, subject)[|cleanups|] == Cleanup(subject, Pending, 0, None);
    }
  }

  lemma UncleanCompletion(s: State, name: string, completedAt: int, k: nat)
    requires Inv(s, k) && k >= 1 && name in s.creating && HasRow(s.cleanups, Named(name))
    ensures !Promised(Completed(s, name, completedAt), k)
  {
    var t := Completed(s, name, completedAt);
    var c :| 0 <= c < |s.cleanups| && s.cleanups[c].subject == Named(name);
    assert t.cleanups[c].subject == Complete(|s.sets|) && Newest(t.sets, |s.sets|, k);
    if Unfinished(s.cleanups[c]) {
      RowDooms(t, c, |s.sets|, k);
    } else {
      PurgedIsUnsafe(t, |s.sets|, k);
    }
  }

  lemma UncleanFailure(s: State, marked: bool, k: nat)
    requires Inv(s, k) && k >= 1 && !Clean(s, LateFailStep(marked), k)
    ensures !Promised(Apply(s, LateFailStep(marked)), k)
  {
    var t, last := Apply(s, LateFailStep(marked)), |s.sets| - 1;
    EnsuredHas(s.cleanups, Complete(last));
    if !marked {
      assert Leaving(t, last) && Newest(t.sets, last, k);
      LeavingDooms(t, last, k);
    } else {
      var i :| 0 <= i < last && Leaving(s, i) && !Covered(s.sets, i, k + 1);
      StillLeaving(s, t, i);
      FailedUncovers(s, i, k);
      LeavingDooms(t, i, k);
    }
  }

  lemma StillLeaving(s: State, t: State, i: nat)
    requires s.sets != [] && t == Apply(s, LateFailStep(true)) && i < |s.sets| - 1 && Leaving(s, i)
    ensures Leaving(t, i)
  {
    EnsuredHas(s.cleanups, Complete(|s.sets| - 1));
    if HasUnfinished(s.cleanups, Complete(i)) {
      var c :| 0 <= c < |s.cleanups| && s.cleanups[c].subject == Complete(i) && Unfinished(s.cleanups[c]);
      assert t.cleanups[c] == s.cleanups[c];
    }
  }

  lemma FailedUncovers(s: State, i: nat, k: nat)
    requires Inv(s, k) && k >= 1 && i < |s.sets| - 1 && !s.sets[|s.sets| - 1].failed && !Covered(s.sets, i, k + 1)
    ensures Newest(s.sets[|s.sets| - 1 := s.sets[|s.sets| - 1].(failed := true)], i, k)
  {
    var last: nat := |s.sets| - 1;
    var later := s.sets[last := s.sets[last].(failed := true)];
    assert s.sets[last].purged ==> Covered(s.sets, last, k);
    UnpurgedFrame(s.sets, later, i + 1, last);
  }

  lemma UncleanIsUnpromised(s: State, step: Step, k: nat)
    requires k >= 1 && Inv(s, k) && !Clean(s, step, k)
    ensures !Promised(Apply(s, step), k)
  {
    if step.CompleteStep? {
      UncleanCompletion(s, step.name, step.completedAt, k);
    } else {
      UncleanFailure(s, step.marked, k);
    }
  }

  lemma {:induction false} PromisedIffCleanFrom(s: State, steps: seq<Step>, k: nat)
    requires k >= 1 && Inv(s, k) && LegalRun(s, steps, k)
    ensures AlwaysPromised(s, steps, k) <==> CleanRun(s, steps, k)
    decreases |steps|
  {
    InvIsPromise(s, k);
    if steps != [] {
      if Clean(s, steps[0], k) {
        StepKeeps(s, steps[0], k);
        PromisedIffCleanFrom(Apply(s, steps[0]), steps[1..], k);
      } else {
        UncleanIsUnpromised(s, steps[0], k);
        assert !AlwaysPromised(Apply(s, steps[0]), steps[1..], k);
      }
    }
  }

  /**
   In a run whose sweeps all keep at least `k >= 1`, the newest `k` backups are safe
   for good, at every moment, if and only if every failure is clean: no set with a
   cleanup from a failed execution completes, no set fails unmarked after completing,
   and none that is marked then was one of the `k` that something leaving relied on.
  */
  lemma NewestKeptIffClean(steps: seq<Step>, k: nat)
    requires k >= 1 && LegalRun(EMPTY, steps, k)
    ensures AlwaysPromised(EMPTY, steps, k) <==> CleanRun(EMPTY, steps, k)
  {
    PromisedIffCleanFrom(EMPTY, steps, k);
  }

  /** Two backups: the older is beyond what a sweep keeps that keeps one. */
  const OLDER: BackupSet := BackupSet(0, false, false)
  const NEWER: BackupSet := BackupSet(1, false, false)
  const TWO: State := State([OLDER, NEWER], [], Idle, {}, {}, {})

  lemma TwoBackups(rest: seq<Step>)
    requires LegalRun(TWO, rest, 1)
    ensures var steps := [CreateStep("a")] + ([CompleteStep("a", 0)] + ([CreateStep("b")] + ([CompleteStep("b", 1)] + rest)));
      LegalRun(EMPTY, steps, 1) && (CleanRun(EMPTY, steps, 1) <==> CleanRun(TWO, rest, 1)) && Run(EMPTY, steps) == Run(TWO, rest)
  {
    var s1, s2 := EMPTY.(creating := {"a"}), State([OLDER], [], Idle, {}, {}, {});
    var s3 := s2.(creating := {"b"});
    assert Retargeted([], "a", 0) == [] && Retargeted([], "b", 1) == [];
    assert Apply(EMPTY, CreateStep("a")) == s1 && Apply(s1, CompleteStep("a", 0)) == s2;
    assert Apply(s2, CreateStep("b")) == s3 && Apply(s3, CompleteStep("b", 1)) == TWO;
    FirstThen(s3, CompleteStep("b", 1), rest, 1);
    FirstThen(s2, CreateStep("b"), [CompleteStep("b", 1)] + rest, 1);
    FirstThen(s1, CompleteStep("a", 0), [CreateStep("b")] + ([CompleteStep("b", 1)] + rest), 1);
    FirstThen(EMPTY, CreateStep("a"), [CompleteStep("a", 0)] + ([CreateStep("b")] + ([CompleteStep("b", 1)] + rest)), 1);
  }

  /** A sweep has the older of the two in hand. */
  lemma OlderChosen() returns (s: State)
    ensures s == Apply(Apply(Apply(TWO, BeginStep(2, 1, 2, 1)), NextStep(Purged)), NextStep(Purged))
    ensures s == TWO.(sweep := Purging([], 0, 2, 2, Some(0)))
  {
    s := Apply(Apply(Apply(TWO, BeginStep(2, 1, 2, 1)), NextStep(Purged)), NextStep(Purged));
    assert DueCleanups([], 0, 2) == [];
    assert Candidates(TWO.sets, 0, 0, 2) == [] && Candidates(TWO.sets, 1, 0, 2) == [0] && Candidates(TWO.sets, 2, 1, 2) == [0];
    assert Restorable(TWO.sets, 0) == [] && Restorable(TWO.sets, 1) == [0] && Restorable(TWO.sets, 2) == [1, 0];
  }

  lemma ThenChosen(rest: seq<Step>)
    requires LegalRun(TWO.(sweep := Purging([], 0, 2, 2, Some(0))), rest, 1)
    ensures var steps := [BeginStep(2, 1, 2, 1)] + ([NextStep(Purged)] + ([NextStep(Purged)] + rest));
      && LegalRun(TWO, steps, 1) && Run(TWO, steps) == Run(TWO.(sweep := Purging([], 0, 2, 2, Some(0))), rest)
      && (CleanRun(TWO, steps, 1) <==> CleanRun(TWO.(sweep := Purging([], 0, 2, 2, Some(0))), rest, 1))
  {
    var s := OlderChosen();
    var s1 := Apply(TWO, BeginStep(2, 1, 2, 1));
    FirstThen(Apply(s1, NextStep(Purged)), NextStep(Purged), rest, 1);
    FirstThen(s1, NextStep(Purged), [NextStep(Purged)] + rest, 1);
    FirstThen(TWO, BeginStep(2, 1, 2, 1), [NextStep(Purged)] + ([NextStep(Purged)] + rest), 1);
  }

  /** The newer of the two is marked failed while the older is in hand. */
  lemma FailsMeanwhile() returns (steps: seq<Step>)
    ensures var s := TWO.(sweep := Purging([], 0, 2, 2, Some(0)));
      LegalRun(s, steps, 1) && !CleanRun(s, steps, 1) && Run(s, steps).sets == [OLDER.(purged := true), NEWER.(failed := true)]
  {
    var s := TWO.(sweep := Purging([], 0, 2, 2, Some(0)));
    var t := Apply(s, LateFailStep(true));
    assert Leaving(s, 0) && Unpurged(s.sets, 1, 2) == 1;
    FirstThen(t, NextStep(Purged), [], 1);
    FirstThen(s, LateFailStep(true), [NextStep(Purged)] + [], 1);
    steps := [LateFailStep(true)] + ([NextStep(Purged)] + []);
  }

  /** The newest backup is marked failed after it completed, while a sweep deletes the only other one: none is left. */
  lemma LateFailureLosesAll() returns (steps: seq<Step>)
    ensures LegalRun(EMPTY, steps, 1) && !CleanRun(EMPTY, steps, 1)
    ensures Run(EMPTY, steps).sets == [OLDER.(purged := true), NEWER.(failed := true)]
  {
    steps := FailsMeanwhile();
    ThenChosen(steps);
    steps := [BeginStep(2, 1, 2, 1)] + ([NextStep(Purged)] + ([NextStep(Purged)] + steps));
    TwoBackups(steps);
    steps := [CreateStep("a")] + ([CompleteStep("a", 0)] + ([CreateStep("b")] + ([CompleteStep("b", 1)] + steps)));
  }

  /** A run of retried deletions: the cleanup row of the only completed set succeeds. */
  lemma RetryPurgesOnly(s: State, k: nat) returns (steps: seq<Step>)
    requires |s.sets| == 1 && s.sweep.Idle? && |s.cleanups| == 1
    requires s.cleanups[0] == Cleanup(Complete(0), Pending, 0, None)
    ensures LegalRun(s, steps, k) && Run(s, steps).sets == [s.sets[0].(purged := true)]
  {
    var begin := BeginStep(0, k, 0, 1);
    DueIncludes(s.cleanups, 1, 0, 0);
    assert DueCleanups(s.cleanups, 1, 0) == [0];
    var t := Apply(s, begin);
    FirstThen(t, NextStep(Purged), [], k);
    FirstThen(s, begin, [NextStep(Purged)] + [], k);
    steps := [begin] + ([NextStep(Purged)] + []);
  }

  /** Such a run can purge the only restorable backup there is: its execution failed unmarked and was resumed. */
  lemma OnlyBackupIsPurged(name: string, k: nat) returns (steps: seq<Step>)
    requires k >= 1
    ensures LegalRun(EMPTY, steps, k) && !CleanRun(EMPTY, steps, k)
    ensures |Run(EMPTY, steps).sets| == 1 && Run(EMPTY, steps).sets[0].purged && !Run(EMPTY, steps).sets[0].failed
  {
    var row := Cleanup(Named(name), Pending, 0, None);
    var s1 := EMPTY.(creating := {name});
    var s2 := s1.(cleanups := [row]);
    var s3 := State([BackupSet(0, false, false)], [row.(subject := Complete(0))], Idle, {}, {}, {});
    assert Apply(s1, FailStep(name, false, true)) == s2;
    assert s2.cleanups[0].subject == Named(name);
    assert Retargeted(s2.cleanups, name, 0) == s3.cleanups;
    assert Apply(s2, CompleteStep(name, 0)) == s3;
    steps := RetryPurgesOnly(s3, k);
    FirstThen(s2, CompleteStep(name, 0), steps, k);
    steps := [CompleteStep(name, 0)] + steps;
    FirstThen(s1, FailStep(name, false, true), steps, k);
    steps := [FailStep(name, false, true)] + steps;
    assert Apply(EMPTY, CreateStep(name)) == s1;
    FirstThen(EMPTY, CreateStep(name), steps, k);
    steps := [CreateStep(name)] + steps;
  }

  // ---------------------------------------------------------------- backups that a restore refers to

  /** The reference stays throughout, and the backup's own execution does not fail after completing it. */
  predicate KeepsReference(s: State, steps: seq<Step>, i: nat)
    decreases |steps|
  {
    steps == [] || (KeepsOnce(s, steps[0], i) && KeepsReference(Apply(s, steps[0]), steps[1..], i))
  }

  predicate KeepsOnce(s: State, step: Step, i: nat) {
    (step.ReferenceStep? ==> i in step.referenced) && (step.LateFailStep? ==> |s.sets| != i + 1)
  }

  /** As long as the reference stays, nothing purges the backup. */
  ghost predicate Protected(s: State, i: nat) {
    forall steps :: KeepsReference(s, steps, i) && i < |Run(s, steps).sets| ==> !Run(s, steps).sets[i].purged
  }

  /** Nothing that is left to do is about set `i`. */
  predicate Spared(s: State, i: nat) {
    && i < |s.sets| && !s.sets[i].purged && i in s.referenced
    && !HasUnfinished(s.cleanups, Complete(i))
    && (s.sweep.Purging? ==> s.sweep.chosen != Some(i))
  }

  lemma SparedStays(s: State, step: Step, i: nat)
    requires Spared(s, i) && DueHolds(s) && KeepsOnce(s, step, i)
    ensures Spared(Apply(s, step), i) && DueHolds(Apply(s, step))
  {
    DueStays(s, step);
  }

  lemma DueStays(s: State, step: Step)
    requires DueHolds(s)
    ensures DueHolds(Apply(s, step))
  {}

  lemma {:induction false} DueAlways(s: State, steps: seq<Step>)
    requires DueHolds(s)
    ensures DueHolds(Run(s, steps))
    decreases |steps|
  {
    if steps != [] {
      DueStays(s, steps[0]);
      DueAlways(Apply(s, steps[0]), steps[1..]);
    }
  }

  lemma {:induction false} SparedForGood(s: State, steps: seq<Step>, i: nat)
    requires Spared(s, i) && DueHolds(s) && KeepsReference(s, steps, i)
    ensures Spared(Run(s, steps), i)
    decreases |steps|
  {
    if steps != [] {
      SparedStays(s, steps[0], i);
      SparedForGood(Apply(s, steps[0]), steps[1..], i);
    }
  }

  lemma NotProtectedBefore(s: State, step: Step, i: nat)
    requires KeepsOnce(s, step, i) && !Protected(Apply(s, step), i)
    ensures !Protected(s, i)
  {
    var steps :| KeepsReference(Apply(s, step), steps, i) && i < |Run(Apply(s, step), steps).sets| && Run(Apply(s, step), steps).sets[i].purged;
    var all := [step] + steps;
    assert all[1..] == steps;
    assert KeepsReference(s, all, i) && Run(s, all) == Run(Apply(s, step), steps);
  }

  /** A retrying sweep whose deletions all succeed purges what row `c` is about. */
  lemma {:induction false} RetriesReach(s: State, c: nat, i: nat)
    requires s.sweep.Retrying? && c in s.sweep.due && |s.sweep.due| <= s.sweep.budget
    requires forall p :: 0 <= p < |s.sweep.due| ==> s.sweep.due[p] < |s.cleanups|
    requires s.cleanups[c].subject == Complete(i) && i < |s.sets|
    ensures !Protected(s, i)
    decreases |s.sweep.due|
  {
    var t := Next(s, Purged);
    if s.sweep.due[0] == c {
      assert KeepsReference(t, [], i) && Run(t, []) == t;
    } else {
      RetriesReach(t, c, i);
    }
    NotProtectedBefore(s, NextStep(Purged), i);
  }

  /**
   At any moment, a backup that a restore refers to is safe for as long as the reference
   stays if and only if it has no unfinished cleanup and no sweep has just chosen it:
   the reference is looked at when a candidate is chosen, not when its cleanup is made,
   processed or retried.
  */
  lemma ProtectedIffNoCleanup(history: seq<Step>, i: nat)
    requires i < |Run(EMPTY, history).sets| && !Run(EMPTY, history).sets[i].purged && i in Run(EMPTY, history).referenced
    ensures Protected(Run(EMPTY, history), i) <==> Spared(Run(EMPTY, history), i)
  {
    var s := Run(EMPTY, history);
    DueAlways(EMPTY, history);
    if Spared(s, i) {
      forall steps | KeepsReference(s, steps, i) && i < |Run(s, steps).sets| ensures !Run(s, steps).sets[i].purged {
        SparedForGood(s, steps, i);
      }
    } else if HasUnfinished(s.cleanups, Complete(i)) {
      UnfinishedExposes(s, i);
    } else {
      var t := Next(s, Purged);
      assert KeepsReference(t, [], i) && Run(t, []) == t && t.sets[i].purged;
      NotProtectedBefore(s, NextStep(Purged), i);
    }
  }

  lemma UnfinishedExposes(s: State, i: nat)
    requires i < |s.sets| && HasUnfinished(s.cleanups, Complete(i))
    ensures !Protected(s, i)
  {
    var c :| 0 <= c < |s.cleanups| && s.cleanups[c].subject == Complete(i) && Unfinished(s.cleanups[c]);
    var idle, now := Apply(s, DieStep), DueTime(s.cleanups[c]);
    DueIncludes(s.cleanups, |s.cleanups|, now, c);
    var begin := BeginStep(now, 1, 0, |DueCleanups(s.cleanups, |s.cleanups|, now)|);
    RetriesReach(Apply(idle, begin), c, i);
    NotProtectedBefore(idle, begin, i);
    NotProtectedBefore(s, DieStep, i);
  }

  /** Some clean run ends with a referenced backup that is not protected: the reference comes after the sweep's check. */
  lemma ReferencedButNotProtected() returns (steps: seq<Step>)
    ensures LegalRun(EMPTY, steps, 1) && CleanRun(EMPTY, steps, 1)
    ensures Run(EMPTY, steps).sets == [OLDER, NEWER] && 0 in Run(EMPTY, steps).referenced && !Protected(Run(EMPTY, steps), 0)
  {
    var s := TWO.(sweep := Purging([], 0, 2, 2, Some(0)));
    FirstThen(s, ReferenceStep({0}), [], 1);
    steps := [ReferenceStep({0})] + [];
    ThenChosen(steps);
    steps := [BeginStep(2, 1, 2, 1)] + ([NextStep(Purged)] + ([NextStep(Purged)] + steps));
    TwoBackups(steps);
    steps := [CreateStep("a")] + ([CompleteStep("a", 0)] + ([CreateStep("b")] + ([CompleteStep("b", 1)] + steps)));
    ProtectedIffNoCleanup(steps, 0);
  }
}

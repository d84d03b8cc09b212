/** The retention sweep as the worker runs it, on its own rows, without interference. */
module RetentionStore {
  import opened Options
  import opened Retention

  /** The sweep, transaction by transaction; it ends when it is done or when the worker dies. */
  function Drive(s: State, outcomes: seq<Outcome>): State
    decreases |outcomes|
  {
    if s.sweep.Idle? then s
    else if outcomes == [] then s.(sweep := Idle)
    else Drive(Next(s, outcomes[0]), outcomes[1..])
  }

  /** Whenever the worker dies, a sweep that kept at least `k` leaves the newest `k` alone. */
  lemma {:induction false} DriveKeeps(s: State, outcomes: seq<Outcome>, k: nat)
    requires Inv(s, k) && k >= 1
    ensures Inv(Drive(s, outcomes), k) && Drive(s, outcomes).sweep.Idle?
    decreases |outcomes|
  {
    if !s.sweep.Idle? && outcomes != [] {
      StepKeeps(s, NextStep(outcomes[0]), k);
      DriveKeeps(Next(s, outcomes[0]), outcomes[1..], k);
    }
  }

  /** Run after a clean history, a sweep that keeps at least `k` leaves retention's promise kept, wherever it died. */
  lemma SweepKeepsPromise(steps: seq<Step>, begin: Step, outcomes: seq<Outcome>, k: nat)
    requires k >= 1 && LegalRun(EMPTY, steps, k) && CleanRun(EMPTY, steps, k)
    requires begin.BeginStep? && begin.keepLast >= k && Run(EMPTY, steps).sweep.Idle?
    ensures Promised(Drive(Apply(Run(EMPTY, steps), begin), outcomes), k)
  {
    CleanRunKeeps(EMPTY, steps, k);
    StepKeeps(Run(EMPTY, steps), begin, k);
    DriveKeeps(Apply(Run(EMPTY, steps), begin), outcomes, k);
    InvIsPromise(Drive(Apply(Run(EMPTY, steps), begin), outcomes), k);
  }

  class RetentionSweeper {
    var sets: seq<BackupSet>
    var cleanups: seq<Cleanup>
    var referenced: set<nat>
    var creating: set<string>
    var early: set<string>

    ghost function View(sweep: Sweep): State
      reads this
    {
      State(sets, cleanups, sweep, referenced, creating, early)
    }

    constructor ()
      ensures View(Idle) == EMPTY
    {
      sets, cleanups, referenced, creating, early := [], [], {}, {}, {};
    }

    /** `_due_cleanup_targets`. */
    method ListDue(now: int) returns (due: seq<nat>)
      ensures due == DueCleanups(cleanups, |cleanups|, now)
    {
      due := [];
      for k := 0 to |cleanups|
        invariant due == DueCleanups(cleanups, k, now)
      {
        due := due + if IsDue(cleanups[k], now) then [k] else [];
      }
    }

    /** `_restorable_backups` from the newest down, and what is left of it after the newest `keepLast` and the cutoff. */
    method ListCandidates(keepLast: nat, cutoff: int) returns (queue: seq<nat>, restorable: nat)
      ensures queue == Candidates(sets, |sets|, keepLast, cutoff)
      ensures restorable == |Restorable(sets, |sets|)|
    {
      queue, restorable := [], 0;
      var n: nat, keep: nat := |sets|, keepLast;
      while n > 0
        invariant n <= |sets|
        invariant Candidates(sets, |sets|, keepLast, cutoff) == Candidates(sets, n, keep, cutoff) + queue
        invariant |Restorable(sets, |sets|)| == restorable + |Restorable(sets, n)|
      {
        var last := sets[n - 1];
        ghost var below := Candidates(sets, n - 1, KeepBelow(last, keep), cutoff);
        if last.Usable() {
          restorable := restorable + 1;
          if keep > 0 {
            keep := keep - 1;
          } else if last.completedAt < cutoff {
            queue := [n - 1] + queue;
          }
        }
        n := n - 1;
        assert Candidates(sets, |sets|, keepLast, cutoff) == below + queue;
      }
    }

    /** `_process_cleanup_target`: mark the row, delete, then record how it went. */
    method ProcessCleanup(k: nat, now: int, outcome: Outcome)
      requires k < |cleanups|
      modifies this
      ensures forall sweep: Sweep :: View(sweep) == Process(old(View(sweep)), k, now, outcome).(sweep := sweep)
    {
      var c := cleanups[k];
      if outcome == Crashed(false) {
        return;
      }
      var attempts := c.attempts + 1;
      cleanups := cleanups[k := c.(status := Deleting, attempts := attempts)];
      if outcome.Crashed? {
        return;
      }
      if outcome.Refused? {
        cleanups := cleanups[k := Cleanup(c.subject, Failed, attempts, Some(now + RETRY_BASE * attempts))];
        return;
      }
      if c.subject.Complete? && c.subject.i < |sets| {
        sets := sets[c.subject.i := sets[c.subject.i].(purged := true)];
      }
      if c.subject.Named? {
        early := early + {c.subject.name};
      }
      cleanups := cleanups[k := c.(status := Done, attempts := attempts)];
    }

    /** The retries, within the budget, until the worker dies. */
    method RunRetries(due: seq<nat>, limit: nat, now: int, ghost keepLast: nat, ghost cutoff: int, outcomes: seq<Outcome>)
        returns (died: bool, budget: nat, rest: seq<Outcome>)
      requires forall p :: 0 <= p < |due| ==> due[p] < |cleanups|
      modifies this
      ensures Drive(old(View(Retrying(due, limit, now, keepLast, cutoff))), outcomes) ==
              if died then View(Idle) else Drive(View(Retrying([], budget, now, keepLast, cutoff)), rest)
    {
      ghost var end := Drive(View(Retrying(due, limit, now, keepLast, cutoff)), outcomes);
      budget, rest := limit, outcomes;
      var i := 0;
      while i < |due| && budget > 0
        invariant 0 <= i <= |due|
        invariant forall p :: 0 <= p < |due| ==> due[p] < |cleanups|
        invariant end == Drive(View(Retrying(due[i..], budget, now, keepLast, cutoff)), rest)
      {
        if rest == [] {
          return true, budget, [];
        }
        assert due[i..][1..] == due[i + 1..];
        ProcessCleanup(due[i], now, rest[0]);
        if rest[0].Crashed? {
          return true, budget, [];
        }
        i, budget, rest := i + 1, budget - 1, rest[1..];
      }
      died := false;
    }

    /** The whole sweep; `outcomes` is what happens to its transactions, in order. */
    method RunSweep(now: int, keepLast: nat, cutoff: int, limit: nat, outcomes: seq<Outcome>)
      modifies this
      ensures View(Idle) == Drive(Begin(old(View(Idle)), now, keepLast, cutoff, limit), outcomes)
    {
      ghost var end := Drive(Begin(View(Idle), now, keepLast, cutoff, limit), outcomes);
      var due := ListDue(now);
      var died, budget, rest := RunRetries(due, limit, now, keepLast, cutoff, outcomes);
      if !died && rest != [] {
        RunPurges(now, keepLast, cutoff, budget, rest[1..], end);
      }
    }

    /** The checks of one candidate. */
    predicate Chosen(i: nat, remaining: nat)
      reads this
    {
      i !in referenced && remaining > 1 && !HasUnfinished(cleanups, Complete(i))
    }

    /** A candidate that has passed the checks is given a cleanup row, which is processed at once. */
    method PurgeOne(ghost queue: seq<nat>, i: nat, ghost budget: nat, now: int, remaining: nat, outcome: Outcome) returns (left: nat)
      modifies this
      ensures View(if outcome.Crashed? then Idle else Purging(queue, budget, now, left, None)) ==
              Next(old(View(Purging(queue, budget, now, remaining, Some(i)))), outcome)
    {
      cleanups := cleanups + [Cleanup(Complete(i), Pending, 0, None)];
      ProcessCleanup(|cleanups| - 1, now, outcome);
      left := if outcome.Purged? && remaining > 0 then remaining - 1 else remaining;
    }

    /** One candidate: skipped, or given up to the provider, unless the worker dies in between. */
    method TryOne(ghost queue: seq<nat>, i: nat, budget: nat, now: int, remaining: nat, outcomes: seq<Outcome>)
        returns (died: bool, left: nat, others: nat, at: nat)
      requires queue != [] && queue[0] == i && budget > 0 && outcomes != []
      modifies this
      ensures at <= |outcomes|
      ensures Drive(old(View(Purging(queue, budget, now, remaining, None))), outcomes) ==
              if died then View(Idle) else Drive(View(Purging(queue[1..], left, now, others, None)), outcomes[at..])
    {
      if !Chosen(i, remaining) {
        return false, budget, remaining, 1;
      }
      if |outcomes| == 1 {
        return true, budget - 1, remaining, 1;
      }
      ghost var chosen := View(Purging(queue[1..], budget - 1, now, remaining, Some(i)));
      assert Drive(View(Purging(queue, budget, now, remaining, None)), outcomes) == Drive(Next(chosen, outcomes[1]), outcomes[2..]) by {
        assert outcomes[1..][1..] == outcomes[2..];
      }
      others := PurgeOne(queue[1..], i, budget - 1, now, remaining, outcomes[1]);
      died, left, at := outcomes[1].Crashed?, budget - 1, 2;
    }

    method RunPurges(now: int, keepLast: nat, cutoff: int, limit: nat, outcomes: seq<Outcome>, ghost end: State)
      requires end == Drive(View(Purging(Candidates(sets, |sets|, keepLast, cutoff), limit, now, |Restorable(sets, |sets|)|, None)), outcomes)
      modifies this
      ensures View(Idle) == end
    {
      var queue, remaining := ListCandidates(keepLast, cutoff);
      var budget: nat, i, rest := limit, 0, outcomes;
      while i < |queue| && budget > 0
        invariant 0 <= i <= |queue|
        invariant end == Drive(View(Purging(queue[i..], budget, now, remaining, None)), rest)
      {
        if rest == [] {
          return;
        }
        assert queue[i..][1..] == queue[i + 1..];
        var died, left, others, at := TryOne(queue[i..], queue[i], budget, now, remaining, rest);
        if died {
          return;
        }
        budget, remaining, rest, i := left, others, rest[at..], i + 1;
      }
      if rest != [] {
        assert Drive(View(Idle), rest[1..]) == View(Idle);
      }
    }
  }
}

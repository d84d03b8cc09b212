/**
 The backup schedule (app/backup/worker.py:208-375; app/backup/ops_service.py:315-335):
 which instants are due, which one comes next, and how ticks turn due instants
 into occurrence rows and backups.

 Instants are seconds; the policy's zone is one fixed offset from UTC.
*/
module Schedule {
  import opened Options

  const DAY: int := 86_400

  /** `weekdays` counts from Monday. A daily policy ignores it. */
  datatype Policy = Policy(weekly: bool, weekdays: set<int>, timeOfDay: int, offset: int)

  predicate Valid(p: Policy) {
    && 0 <= p.timeOfDay < DAY
    && (forall d | d in p.weekdays :: 0 <= d < 7)
    && (p.weekly ==> p.weekdays != {})
  }

  /** The local day of an instant, counted from Thursday the first of January 1970. */
  function DayOf(p: Policy, t: int): int {
    (t + p.offset) / DAY
  }

  function Weekday(day: int): int {
    (day + 3) % 7
  }

  predicate Runs(p: Policy, day: int) {
    p.weekly ==> Weekday(day) in p.weekdays
  }

  function InstantOn(p: Policy, day: int): int {
    day * DAY + p.timeOfDay - p.offset
  }

  predicate Scheduled(p: Policy, t: int) {
    t == InstantOn(p, DayOf(p, t)) && Runs(p, DayOf(p, t))
  }

  lemma DaysAreOrdered(p: Policy, t: int, u: int)
    requires t <= u
    ensures DayOf(p, t) <= DayOf(p, u)
  {}

  // ---------------------------------------------------------------- due instants

  predicate IsDue(p: Policy, start: int, now: int, t: int) {
    Scheduled(p, t) && start < t <= now
  }

  /** The loop of `_due_windows` from `day` on. */
  function DueFrom(p: Policy, start: int, now: int, day: int): seq<int>
    decreases DayOf(p, now) - day
  {
    if day > DayOf(p, now) then []
    else (if Runs(p, day) && start < InstantOn(p, day) <= now then [InstantOn(p, day)] else []) + DueFrom(p, start, now, day + 1)
  }

  function Due(p: Policy, start: int, now: int): seq<int> {
    DueFrom(p, start, now, DayOf(p, start))
  }

  predicate Ascending(s: seq<int>) {
    forall i, j :: 0 <= i < j < |s| ==> s[i] < s[j]
  }

  lemma {:induction false} DueFromLater(p: Policy, start: int, now: int, day: int)
    requires Valid(p)
    ensures Ascending(DueFrom(p, start, now, day))
    ensures forall i :: 0 <= i < |DueFrom(p, start, now, day)| ==> InstantOn(p, day) <= DueFrom(p, start, now, day)[i]
    decreases DayOf(p, now) - day
  {
    if day <= DayOf(p, now) { DueFromLater(p, start, now, day + 1); }
  }

  lemma {:induction false} DueFromExactly(p: Policy, start: int, now: int, day: int, t: int)
    requires Valid(p)
    ensures t in DueFrom(p, start, now, day) <==> IsDue(p, start, now, t) && DayOf(p, t) >= day
    decreases DayOf(p, now) - day
  {
    if day <= DayOf(p, now) {
      DueFromExactly(p, start, now, day + 1, t);
    } else if IsDue(p, start, now, t) {
      DaysAreOrdered(p, t, now);
    }
  }

  /** The due list is exactly the scheduled instants after `start` and up to `now`, in order. */
  lemma DueExactly(p: Policy, start: int, now: int)
    requires Valid(p)
    ensures Ascending(Due(p, start, now))
    ensures forall t :: t in Due(p, start, now) <==> IsDue(p, start, now, t)
  {
    DueFromLater(p, start, now, DayOf(p, start));
    forall t ensures t in Due(p, start, now) <==> IsDue(p, start, now, t) {
      DueFromExactly(p, start, now, DayOf(p, start), t);
      if IsDue(p, start, now, t) { DaysAreOrdered(p, start, t); }
    }
  }

  method DueWindows(p: Policy, start: int, now: int) returns (windows: seq<int>)
    requires Valid(p)
    ensures windows == Due(p, start, now)
    ensures Ascending(windows) && forall t :: t in windows <==> IsDue(p, start, now, t)
  {
    windows := [];
    var day, lastDay := DayOf(p, start), DayOf(p, now);
    while day <= lastDay
      invariant Due(p, start, now) == windows + DueFrom(p, start, now, day)
      decreases lastDay - day
    {
      ghost var before, later := windows, DueFrom(p, start, now, day + 1);
      if !p.weekly || Weekday(day) in p.weekdays {
        var candidate := InstantOn(p, day);
        if start < candidate <= now {
          windows := windows + [candidate];
          assert before + ([candidate] + later) == windows + later;
        }
      }
      day := day + 1;
    }
    DueExactly(p, start, now);
  }

  // ---------------------------------------------------------------- the next run

  predicate IsNext(p: Policy, now: int, t: int) {
    now < t && Scheduled(p, t) && forall u :: now < u && Scheduled(p, u) ==> t <= u
  }

  /** `_next_run_at`: some instant comes next unless the policy is off, and it is the least one after `now`. */
  method NextRunAt(p: Policy, enabled: bool, now: int) returns (next: Option<int>)
    requires Valid(p)
    ensures next.None? <==> !enabled
    ensures next.Some? ==> IsNext(p, now, next.value)
  {
    if !enabled {
      return None;
    }
    var today := DayOf(p, now);
    if !p.weekly {
      var candidate := InstantOn(p, today);
      if candidate <= now {
        return Some(candidate + DAY);
      }
      return Some(candidate);
    }
    for offset := 0 to 8
      invariant forall d :: today <= d < today + offset && Runs(p, d) ==> InstantOn(p, d) <= now
    {
      var day := today + offset;
      if Weekday(day) in p.weekdays && InstantOn(p, day) > now {
        return Some(InstantOn(p, day));
      }
    }
    ghost var day := SomeDayRuns(p, today + 1);
    assert false;
  }

  /** Seven days in a row contain one that runs. */
  lemma SomeDayRuns(p: Policy, from: int) returns (day: int)
    requires Valid(p) && p.weekly
    ensures from <= day < from + 7 && Runs(p, day)
  {
    assert (forall d :: d !in p.weekdays) ==> p.weekdays == {};
    var d :| d in p.weekdays;
    day := from + (d - Weekday(from)) % 7;
  }

  /** What is announced as the next run is what the due list starts with, once it is due and for as long as it stays unserved. */
  lemma NextIsHeadOfDue(p: Policy, start: int, next: int, now: int)
    requires Valid(p) && IsNext(p, start, next)
    ensures now < next ==> Due(p, start, now) == []
    ensures next <= now ==> Due(p, start, now) != [] && Due(p, start, now)[0] == next
  {
    DueExactly(p, start, now);
    var due := Due(p, start, now);
    if due != [] { assert due[0] in due; }
    if next <= now {
      assert next in due;
      assert due[0] in due;
    }
  }

  // ---------------------------------------------------------------- ticks

  datatype Outcome = Executed | SkippedActive | SkippedMissed
  datatype Occurrence = Occurrence(outcome: Outcome, backup: Option<string>)

  /** Where the tick stands; one tick at a time holds the schedule lease. */
  datatype Ticker =
    | Idle
    | Marking(todo: seq<int>, latest: int)
    | Creating(latest: int)
    | Finalizing(latest: int, outcome: Outcome, backup: Option<string>)
    | Releasing(latest: int)

  /** `origin` is when the policy was last changed; `rows` has one row an instant, as its unique key says; `created` lists the backups made, by instant. */
  datatype State = State(
    policy: Policy, origin: int, last: Option<int>, rows: map<int, Occurrence>, ticker: Ticker, created: seq<int>)

  /** What `create_scheduled_backup` answers. */
  datatype Creation = Created(backup: string) | InProgress | Raised

  datatype Step =
    | TickStep(now: int, idle: bool)
    | MarkStep
    | CreateStep(creation: Creation)
    | FinalizeStep
    | ReleaseStep(committed: bool)
    | CrashStep

  function StartOf(s: State): int {
    if s.last.Some? then s.last.value else s.origin
  }

  /** A tick looks at what is due, unless the policy is off or a restore has closed reads. */
  function Tick(s: State, now: int, idle: bool): State {
    var due := Due(s.policy, StartOf(s), now);
    if !s.ticker.Idle? || idle || due == [] then s
    else s.(ticker := Marking(due[..|due| - 1], due[|due| - 1]))
  }

  /** The next missed window gets a row; after the last one, the latest window is claimed. */
  function Mark(s: State, todo: seq<int>, latest: int): State {
    if todo != [] then
      s.(rows := if todo[0] in s.rows then s.rows else s.rows[todo[0] := Occurrence(SkippedMissed, None)],
         ticker := Marking(todo[1..], latest))
    else if latest in s.rows then s.(ticker := Idle)
    else s.(rows := s.rows[latest := Occurrence(Executed, None)], ticker := Creating(latest))
  }

  function Create(s: State, latest: int, creation: Creation): State {
    match creation
    case Created(backup) => s.(ticker := Finalizing(latest, Executed, Some(backup)), created := s.created + [latest])
    case InProgress => s.(ticker := Finalizing(latest, SkippedActive, None))
    case Raised => s.(ticker := Releasing(latest))
  }

  function Apply(s: State, step: Step): State {
    match step
    case TickStep(now, idle) => Tick(s, now, idle)
    case MarkStep => if s.ticker.Marking? then Mark(s, s.ticker.todo, s.ticker.latest) else s
    case CreateStep(creation) => if s.ticker.Creating? then Create(s, s.ticker.latest, creation) else s
    case FinalizeStep =>
      if !s.ticker.Finalizing? then s
      else s.(rows := s.rows[s.ticker.latest := Occurrence(s.ticker.outcome, s.ticker.backup)], last := Some(s.ticker.latest), ticker := Idle)
    case ReleaseStep(committed) =>
      if !s.ticker.Releasing? then s
      else s.(rows := if committed then s.rows - {s.ticker.latest} else s.rows, ticker := Idle)
    case CrashStep => s.(ticker := Idle)
  }

  function Run(s: State, steps: seq<Step>): State
    decreases |steps|
  {
    if steps == [] then s else Run(Apply(s, steps[0]), steps[1..])
  }

  function NewState(policy: Policy, origin: int): State {
    State(policy, origin, None, map[], Idle, [])
  }

  // ---------------------------------------------------------------- the invariant

  predicate RowsCover(p: Policy, rows: map<int, Occurrence>, from: int, to: int) {
    forall t :: Scheduled(p, t) && from < t <= to ==> t in rows
  }

  /** The instant the tick has in hand comes after everything served, and all between them have rows. */
  predicate InHand(s: State, latest: int) {
    Scheduled(s.policy, latest) && latest > StartOf(s) && latest in s.rows && RowsCover(s.policy, s.rows, StartOf(s), latest)
  }

  predicate TickerHolds(s: State) {
    match s.ticker
    case Idle => true
    case Marking(todo, latest) =>
      && Scheduled(s.policy, latest) && latest > StartOf(s)
      && (forall i :: 0 <= i < |todo| ==> Scheduled(s.policy, todo[i]) && StartOf(s) < todo[i] < latest)
      && (forall t :: Scheduled(s.policy, t) && StartOf(s) < t < latest ==> t in s.rows || t in todo)
    case Creating(latest) => InHand(s, latest) && latest !in s.created
    case Finalizing(latest, outcome, backup) => InHand(s, latest)
    case Releasing(latest) => InHand(s, latest) && latest !in s.created
  }

  predicate CreatedHolds(s: State) {
    && (forall t :: t in s.created ==> t in s.rows)
    && (forall i, j :: 0 <= i < j < |s.created| ==> s.created[i] != s.created[j])
  }

  predicate Inv(s: State) {
    && Valid(s.policy)
    && (s.last.Some? ==> s.last.value > s.origin && Scheduled(s.policy, s.last.value))
    && RowsCover(s.policy, s.rows, s.origin, StartOf(s))
    && (forall t :: t in s.rows ==> Scheduled(s.policy, t) && t > s.origin)
    && TickerHolds(s) && CreatedHolds(s)
  }

  /** Rows up to the last served instant are final; `last` only moves forward; a row with no tick on it stays, unserved. */
  predicate Grows(s: State, t: State) {
    && t.policy == s.policy && t.origin == s.origin && StartOf(s) <= StartOf(t)
    && (forall i :: i in s.rows && i <= StartOf(s) ==> i in t.rows && t.rows[i] == s.rows[i])
    && s.created <= t.created
  }

  lemma TickKeeps(s: State, now: int, idle: bool)
    requires Inv(s)
    ensures Inv(Tick(s, now, idle)) && Grows(s, Tick(s, now, idle))
  {
    DueExactly(s.policy, StartOf(s), now);
    var due := Due(s.policy, StartOf(s), now);
    if due != [] {
      var latest := due[|due| - 1];
      assert latest in due;
      forall i | 0 <= i < |due| - 1 ensures IsDue(s.policy, StartOf(s), now, due[i]) && due[i] < latest {
        assert due[i] in due;
      }
      forall t | Scheduled(s.policy, t) && StartOf(s) < t < latest ensures t in due[..|due| - 1] {
        assert t in due;
      }
    }
  }

  lemma MarkKeeps(s: State, todo: seq<int>, latest: int)
    requires Inv(s) && s.ticker == Marking(todo, latest)
    ensures Inv(Mark(s, todo, latest)) && Grows(s, Mark(s, todo, latest))
  {
    if todo != [] {
      var t := Mark(s, todo, latest);
      forall u | Scheduled(s.policy, u) && StartOf(s) < u < latest ensures u in t.rows || u in todo[1..] {
        assert u in todo ==> u == todo[0] || u in todo[1..];
      }
    }
  }

  lemma FinalizeKeeps(s: State)
    requires Inv(s) && s.ticker.Finalizing?
    ensures Inv(Apply(s, FinalizeStep)) && Grows(s, Apply(s, FinalizeStep))
  {
    var t := Apply(s, FinalizeStep);
    forall u | Scheduled(s.policy, u) && s.origin < u <= StartOf(t) ensures u in t.rows {}
  }

  lemma StepKeeps(s: State, step: Step)
    requires Inv(s)
    ensures Inv(Apply(s, step)) && Grows(s, Apply(s, step))
  {
    match step
    case TickStep(now, idle) => TickKeeps(s, now, idle);
    case MarkStep => if s.ticker.Marking? { MarkKeeps(s, s.ticker.todo, s.ticker.latest); }
    case CreateStep(creation) =>
    case FinalizeStep => if s.ticker.Finalizing? { FinalizeKeeps(s); }
    case ReleaseStep(committed) =>
    case CrashStep =>
  }

  lemma {:induction false} RunKeeps(s: State, steps: seq<Step>)
    requires Inv(s)
    ensures Inv(Run(s, steps)) && Grows(s, Run(s, steps))
    decreases |steps|
  {
    if steps != [] {
      StepKeeps(s, steps[0]);
      RunKeeps(Apply(s, steps[0]), steps[1..]);
    }
  }

  // ---------------------------------------------------------------- main results

  /**
   Over any run of ticks, releases and crashes: up to the last served instant the
   rows are exactly the scheduled instants, and no instant was given two backups.
  */
  lemma RowsAreExactlyTheSchedule(policy: Policy, origin: int, steps: seq<Step>, t: int)
    requires Valid(policy) && origin < t <= StartOf(Run(NewState(policy, origin), steps))
    ensures t in Run(NewState(policy, origin), steps).rows <==> Scheduled(policy, t)
  {
    RunKeeps(NewState(policy, origin), steps);
  }

  lemma OneBackupPerInstant(policy: Policy, origin: int, steps: seq<Step>, i: nat, j: nat)
    requires Valid(policy) && i < j < |Run(NewState(policy, origin), steps).created|
    ensures Run(NewState(policy, origin), steps).created[i] != Run(NewState(policy, origin), steps).created[j]
  {
    RunKeeps(NewState(policy, origin), steps);
  }

  /** A tick is working on instant `t`, past its claim. */
  predicate At(ticker: Ticker, t: int) {
    !ticker.Idle? && !ticker.Marking? && ticker.latest == t
  }

  /** The instant that this step leaves claimed with nobody at work on it: the worker dies past the claim, or its release does not commit. */
  function Drops(s: State, step: Step): set<int> {
    if s.ticker.Idle? || s.ticker.Marking? then {}
    else if step.CrashStep? || (step == ReleaseStep(false) && s.ticker.Releasing?) then {s.ticker.latest}
    else {}
  }

  function Dropped(s: State, steps: seq<Step>): set<int>
    decreases |steps|
  {
    if steps == [] then {} else Drops(s, steps[0]) + Dropped(Apply(s, steps[0]), steps[1..])
  }

  /** Rows that say executed name their backup, except those in hand and those dropped. */
  predicate BackupsHold(s: State, dropped: set<int>) {
    && (forall t | t in dropped :: t in s.rows && !At(s.ticker, t) && s.rows[t] == Occurrence(Executed, None))
    && (forall t | t in s.rows :: At(s.ticker, t) ==> s.rows[t] == Occurrence(Executed, None))
    && (forall t | t in s.rows :: s.rows[t] == Occurrence(Executed, None) && !At(s.ticker, t) ==> t in dropped)
    && (s.ticker.Finalizing? ==> (s.ticker.outcome.Executed? <==> s.ticker.backup.Some?))
    && (!s.ticker.Idle? && !s.ticker.Marking? ==> s.ticker.latest in s.rows)
  }

  lemma StepKeepsBackups(s: State, step: Step, dropped: set<int>)
    requires BackupsHold(s, dropped)
    ensures BackupsHold(Apply(s, step), dropped + Drops(s, step))
  {}

  lemma {:induction false} RunKeepsBackups(s: State, steps: seq<Step>, dropped: set<int>)
    requires BackupsHold(s, dropped)
    ensures BackupsHold(Run(s, steps), dropped + Dropped(s, steps))
    decreases |steps|
  {
    if steps == [] {
      assert dropped + {} == dropped;
    } else {
      StepKeepsBackups(s, steps[0], dropped);
      RunKeepsBackups(Apply(s, steps[0]), steps[1..], dropped + Drops(s, steps[0]));
      assert dropped + Drops(s, steps[0]) + Dropped(Apply(s, steps[0]), steps[1..]) == dropped + Dropped(s, steps);
    }
  }

  /**
   An instant whose row says it was executed, and that no tick is working on, has
   its backup if and only if its claim was never dropped: no worker died past the
   claim on it, and no release of it failed to commit.
  */
  lemma ServedIffNotDropped(policy: Policy, origin: int, steps: seq<Step>, t: int)
    requires t in Run(NewState(policy, origin), steps).rows && Run(NewState(policy, origin), steps).rows[t].outcome.Executed?
    requires !At(Run(NewState(policy, origin), steps).ticker, t)
    ensures Run(NewState(policy, origin), steps).rows[t].backup.Some? <==> t !in Dropped(NewState(policy, origin), steps)
  {
    RunKeepsBackups(NewState(policy, origin), steps, {});
    assert {} + Dropped(NewState(policy, origin), steps) == Dropped(NewState(policy, origin), steps);
  }

  lemma AbandonedStepStays(s: State, step: Step, t: int)
    requires t in s.rows && !At(s.ticker, t)
    ensures t in Apply(s, step).rows && !At(Apply(s, step).ticker, t)
    ensures Apply(s, step).rows[t] == s.rows[t]
    ensures t in Apply(s, step).created <==> t in s.created
  {}

  /**
   A claim whose worker died is never taken up again: in no later run is a backup
   made for that instant, though its row goes on saying it was executed.
  */
  lemma {:induction false} AbandonedClaimIsNeverServed(s: State, steps: seq<Step>, t: int)
    requires t in s.rows && !At(s.ticker, t)
    ensures t in Run(s, steps).rows && Run(s, steps).rows[t] == s.rows[t]
    ensures t in Run(s, steps).created <==> t in s.created
    decreases |steps|
  {
    if steps != [] {
      AbandonedStepStays(s, steps[0], t);
      AbandonedClaimIsNeverServed(Apply(s, steps[0]), steps[1..], t);
    }
  }

  const MIDNIGHTS: Policy := Policy(false, {}, 0, 0)

  /** The first midnight of a daily policy, claimed by a tick that dies: no later run makes a backup for it. */
  lemma LostInstantIsReachable(more: seq<Step>) returns (steps: seq<Step>)
    ensures Valid(MIDNIGHTS) && Scheduled(MIDNIGHTS, DAY)
    ensures steps == [TickStep(DAY, false), MarkStep, CrashStep]
    ensures DAY in Run(Run(NewState(MIDNIGHTS, 0), steps), more).rows
    ensures Run(Run(NewState(MIDNIGHTS, 0), steps), more).rows[DAY] == Occurrence(Executed, None)
    ensures DAY !in Run(Run(NewState(MIDNIGHTS, 0), steps), more).created
  {
    steps := [TickStep(DAY, false), MarkStep, CrashStep];
    var s0 := NewState(MIDNIGHTS, 0);
    assert DueFrom(MIDNIGHTS, 0, DAY, 2) == [] && DueFrom(MIDNIGHTS, 0, DAY, 1) == [DAY] && DueFrom(MIDNIGHTS, 0, DAY, 0) == [DAY];
    var s1 := Apply(s0, steps[0]);
    assert s1.ticker == Marking([], DAY);
    var s2 := Apply(s1, steps[1]);
    var s3 := Apply(s2, steps[2]);
    assert steps[1..] == [MarkStep, CrashStep] && steps[1..][1..] == [CrashStep] && steps[1..][1..][1..] == [];
    assert Run(s0, steps) == Run(s1, steps[1..]) == Run(s2, steps[1..][1..]) == Run(s3, []) == s3;
    AbandonedClaimIsNeverServed(s3, more, DAY);
  }
}

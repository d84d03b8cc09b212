/**
 Server-sent event replay with Last-Event-ID (app/chat/streaming.py:62-104,
 app/chat/events.py:18-92), interleaved with every transaction of a generation.
*/
module Streaming {
  import opened Generation
  import opened GenerationLaws
  import opened GenerationTheorems

  /** An SSE frame; `append_event` numbers the log 1, 2, 3, ... */
  datatype Frame = Frame(id: nat, event: Event)

  /** `list_events_after`: the frames numbered above `after`, without citation clicks. */
  function EventsAfter(log: seq<Event>, after: nat): seq<Frame> {
    if log == [] then []
    else
      var n := |log|;
      EventsAfter(log[..n - 1], after)
      + if n > after && !log[n - 1].CitationClick? then [Frame(n, log[n - 1])] else []
  }

  function AllFrames(log: seq<Event>): seq<Frame> {
    EventsAfter(log, 0)
  }

  function LastId(frames: seq<Frame>): nat {
    if frames == [] then 0 else Last(frames).id
  }

  /**
   One client. `received` is everything it has been sent over all its
   connections; `finished` says that its last connection ended on a terminal frame.
  */
  datatype Link = Link(received: seq<Frame>, lastSeq: nat, connected: bool, finished: bool)

  /** One read of the log; the client is gone after `cut` frames if the batch is longer. */
  function Receive(link: Link, log: seq<Event>, cut: nat): Link {
    var batch := EventsAfter(log, link.lastSeq);
    if cut < |batch| then
      Link(link.received + batch[..cut], if cut == 0 then link.lastSeq else batch[cut - 1].id, false, link.finished)
    else
      var ends := batch != [] && Last(batch).event.Terminal();
      Link(link.received + batch, if batch == [] then link.lastSeq else Last(batch).id, !ends, ends)
  }

  /** A (re)connection resumes after the last frame the client has received. */
  function Connect(link: Link, log: seq<Event>, cut: nat): Link {
    Receive(Link(link.received, LastId(link.received), true, false), log, cut)
  }

  function Poll(link: Link, log: seq<Event>, cut: nat): Link {
    if link.connected then Receive(link, log, cut) else link
  }

  datatype System = System(rows: Rows, link: Link)
  datatype SystemStep = Backend(step: Step) | ConnectStep(cut: nat) | PollStep(cut: nat) | DropStep

  const NewClient := Link([], 0, false, false)

  ghost function Next(cfg: Config, s: System, step: SystemStep): System {
    match step
    case Backend(b) => s.(rows := Apply(cfg, s.rows, b))
    case ConnectStep(cut) => s.(link := Connect(s.link, s.rows.events, cut))
    case PollStep(cut) => s.(link := Poll(s.link, s.rows.events, cut))
    case DropStep => s.(link := s.link.(connected := false))
  }

  ghost function RunSystem(cfg: Config, s: System, steps: seq<SystemStep>): System {
    if steps == [] then s else Next(cfg, RunSystem(cfg, s, steps[..|steps| - 1]), Last(steps))
  }

  // ---------------------------------------------------------------- frames of a log

  predicate Ascending(frames: seq<Frame>) {
    forall i, j :: 0 <= i < j < |frames| ==> frames[i].id < frames[j].id
  }

  lemma {:induction false} FramesAscend(log: seq<Event>, after: nat)
    ensures Ascending(EventsAfter(log, after))
    ensures forall i :: 0 <= i < |EventsAfter(log, after)| ==> after < EventsAfter(log, after)[i].id <= |log|
  {
    if log != [] { FramesAscend(log[..|log| - 1], after); }
  }

  /** What has been replayed up to an id, followed by the replay after it, is the whole replay. */
  lemma {:induction false} ReplaySplits(log: seq<Event>, sent: seq<Frame>)
    requires sent <= AllFrames(log)
    ensures sent + EventsAfter(log, LastId(sent)) == AllFrames(log)
  {
    if log != [] {
      var n := |log|;
      var front := AllFrames(log[..n - 1]);
      FramesAscend(log[..n - 1], 0);
      FramesAscend(log, 0);
      if sent <= front {
        ReplaySplits(log[..n - 1], sent);
        assert LastId(sent) < n;
      } else {
        assert sent == AllFrames(log) && LastId(sent) == n;
        NothingAfterEnd(log, n);
      }
    }
  }

  lemma {:induction false} NothingAfterEnd(log: seq<Event>, after: nat)
    requires after >= |log|
    ensures EventsAfter(log, after) == []
  {
    if log != [] { NothingAfterEnd(log[..|log| - 1], after); }
  }

  lemma {:induction false} FramesGrow(log: seq<Event>, longer: seq<Event>)
    requires log <= longer
    ensures AllFrames(log) <= AllFrames(longer)
  {
    if |log| < |longer| {
      FramesGrow(log, longer[..|longer| - 1]);
    } else {
      assert log == longer;
    }
  }

  /** The frames carry exactly the visible events, in order. */
  lemma {:induction false} FramesAreVisible(log: seq<Event>)
    ensures |AllFrames(log)| == |Visible(log)|
    ensures forall i :: 0 <= i < |Visible(log)| ==> AllFrames(log)[i].event == Visible(log)[i]
  {
    if log != [] { FramesAreVisible(log[..|log| - 1]); }
  }

  // ---------------------------------------------------------------- the client's view

  /** Received so far: a prefix of the replay, and all of it once a stream has ended on a terminal frame. */
  predicate LinkInv(rows: Rows, link: Link) {
    && link.received <= AllFrames(rows.events)
    && (link.connected ==> link.lastSeq == LastId(link.received))
    && (link.finished ==> !rows.status.Active() && link.received == AllFrames(rows.events))
  }

  lemma ReceiveKeeps(cfg: Config, rows: Rows, link: Link, cut: nat)
    requires Reachable(cfg, rows) && LinkInv(rows, link) && link.connected
    ensures LinkInv(rows, Receive(link, rows.events, cut))
  {
    ReplaySplits(rows.events, link.received);
    var batch := EventsAfter(rows.events, link.lastSeq);
    if cut >= |batch| && batch != [] && Last(batch).event.Terminal() {
      assert Last(batch) == Last(AllFrames(rows.events));
      TerminalFrameCloses(cfg, rows);
    }
  }

  lemma TerminalFrameCloses(cfg: Config, rows: Rows)
    requires Reachable(cfg, rows) && AllFrames(rows.events) != [] && Last(AllFrames(rows.events)).event.Terminal()
    ensures !rows.status.Active()
  {
    FramesAreVisible(rows.events);
    LogTellsStatus(cfg, rows);
  }

  /** A closed generation adds nothing to the replay. */
  lemma SilentAfterEnd(cfg: Config, rows: Rows, step: Step)
    requires !rows.status.Active()
    ensures AllFrames(Apply(cfg, rows, step).events) == AllFrames(rows.events)
  {
    StepIsFinal(cfg, rows, step);
    StepGrows(cfg, rows, step);
    FramesGrow(rows.events, Apply(cfg, rows, step).events);
    FramesAreVisible(rows.events);
    FramesAreVisible(Apply(cfg, rows, step).events);
  }

  lemma BackendKeeps(cfg: Config, rows: Rows, link: Link, step: Step)
    requires LinkInv(rows, link)
    ensures LinkInv(Apply(cfg, rows, step), link)
  {
    var after := Apply(cfg, rows, step);
    StepGrows(cfg, rows, step);
    FramesGrow(rows.events, after.events);
    if !rows.status.Active() {
      SilentAfterEnd(cfg, rows, step);
      StepIsFinal(cfg, rows, step);
    }
  }

  lemma {:induction false} SystemInv(cfg: Config, rows: Rows, steps: seq<SystemStep>)
    requires Reachable(cfg, rows)
    ensures Reachable(cfg, RunSystem(cfg, System(rows, NewClient), steps).rows)
    ensures LinkInv(RunSystem(cfg, System(rows, NewClient), steps).rows, RunSystem(cfg, System(rows, NewClient), steps).link)
  {
    if steps != [] {
      var front := steps[..|steps| - 1];
      SystemInv(cfg, rows, front);
      var s := RunSystem(cfg, System(rows, NewClient), front);
      match Last(steps)
      case Backend(b) =>
        BackendKeeps(cfg, s.rows, s.link, b);
        assert Run(cfg, s.rows, [b]) == Apply(cfg, s.rows, b) by { assert [b][..0] == []; }
        ReachableRun(cfg, s.rows, [b]);
      case ConnectStep(cut) =>
        ReceiveKeeps(cfg, s.rows, Link(s.link.received, LastId(s.link.received), true, false), cut);
      case PollStep(cut) =>
        if s.link.connected { ReceiveKeeps(cfg, s.rows, s.link, cut); }
      case DropStep =>
    }
  }

  /**
   Over any interleaving of transactions, polls, disconnects and reconnects, the
   frames a client has received are, without gap or duplicate, the beginning of
   the replay; after a stream that ended on a terminal frame they are all of it.
  */
  lemma ClientSeesTheLog(cfg: Config, rows: Rows, steps: seq<SystemStep>)
    requires Reachable(cfg, rows)
    ensures UpToDate(RunSystem(cfg, System(rows, NewClient), steps))
  {
    SystemInv(cfg, rows, steps);
    FramesAscend(RunSystem(cfg, System(rows, NewClient), steps).rows.events, 0);
  }

  /** A beginning of the replay, ascending; the whole of it once a stream ended on a terminal frame. */
  predicate UpToDate(s: System) {
    && s.link.received <= AllFrames(s.rows.events) && Ascending(s.link.received)
    && (s.link.finished ==> !s.rows.status.Active() && s.link.received == AllFrames(s.rows.events))
  }

  /**
   When the generation is closed, a client that resumes and reads to the end is told
   that the stream is over if and only if it was still missing frames.
  */
  lemma ReconnectFinishesIffBehind(cfg: Config, rows: Rows, link: Link, cut: nat)
    requires Reachable(cfg, rows) && !rows.status.Active() && LinkInv(rows, link)
    requires cut >= |EventsAfter(rows.events, LastId(link.received))|
    ensures Connect(link, rows.events, cut).finished <==> link.received != AllFrames(rows.events)
    ensures Connect(link, rows.events, cut).received == AllFrames(rows.events)
  {
    ReplaySplits(rows.events, link.received);
    var batch := EventsAfter(rows.events, LastId(link.received));
    if batch != [] {
      assert Last(batch) == Last(AllFrames(rows.events));
      ClosedReplayEnds(cfg, rows);
    }
  }

  lemma ClosedReplayEnds(cfg: Config, rows: Rows)
    requires Reachable(cfg, rows) && !rows.status.Active()
    ensures AllFrames(rows.events) != [] && Last(AllFrames(rows.events)).event.Terminal()
  {
    FramesAreVisible(rows.events);
    LogTellsStatus(cfg, rows);
  }

  /** Steps of one client that never reconnects, while the generation goes on. */
  predicate StaysConnected(steps: seq<SystemStep>) {
    forall i :: 0 <= i < |steps| ==> steps[i].Backend? || steps[i].PollStep?
  }

  /** A client that already has every frame and resumes: connected, and told nothing. */
  predicate Silent(s: System) {
    && !s.rows.status.Active() && s.link.connected && !s.link.finished
    && s.link.received == AllFrames(s.rows.events) && s.link.lastSeq == LastId(s.link.received)
  }

  lemma SilentStays(cfg: Config, s: System, step: SystemStep)
    requires Silent(s) && (step.Backend? || step.PollStep?)
    ensures Silent(Next(cfg, s, step))
  {
    ReplaySplits(s.rows.events, s.link.received);
    assert EventsAfter(s.rows.events, s.link.lastSeq) == [];
    if step.Backend? {
      StepIsFinal(cfg, s.rows, step.step);
      SilentAfterEnd(cfg, s.rows, step.step);
    }
  }

  /** It is never told again: whatever follows, its new stream stays open and silent. */
  lemma {:induction false} SilentForever(cfg: Config, s: System, steps: seq<SystemStep>)
    requires Silent(s) && StaysConnected(steps)
    ensures Silent(RunSystem(cfg, s, steps))
  {
    if steps != [] {
      var front := steps[..|steps| - 1];
      SilentForever(cfg, s, front);
      assert Last(steps).Backend? || Last(steps).PollStep?;
      SilentStays(cfg, RunSystem(cfg, s, front), Last(steps));
    }
  }

  lemma Snoc(cfg: Config, s: System, steps: seq<SystemStep>, step: SystemStep)
    ensures RunSystem(cfg, s, steps + [step]) == Next(cfg, RunSystem(cfg, s, steps), step)
  {
    assert (steps + [step])[..|steps|] == steps;
  }

  /** Every closed generation gets there: a client reads everything, is cut off and resumes. */
  lemma SilentIsReachable(cfg: Config, rows: Rows)
    requires Reachable(cfg, rows) && !rows.status.Active()
    ensures Silent(RunSystem(cfg, System(rows, NewClient), [ConnectStep(|AllFrames(rows.events)|), DropStep, ConnectStep(0)]))
  {
    var s, n := System(rows, NewClient), |AllFrames(rows.events)|;
    Snoc(cfg, s, [], ConnectStep(n));
    Snoc(cfg, s, [ConnectStep(n)], DropStep);
    Snoc(cfg, s, [ConnectStep(n), DropStep], ConnectStep(0));
    assert [] + [ConnectStep(n)] == [ConnectStep(n)];
    assert [ConnectStep(n)] + [DropStep] == [ConnectStep(n), DropStep];
    assert [ConnectStep(n), DropStep] + [ConnectStep(0)] == [ConnectStep(n), DropStep, ConnectStep(0)];
    ReconnectFinishesIffBehind(cfg, rows, NewClient, n);
    var full := Connect(NewClient, rows.events, n).(connected := false);
    assert RunSystem(cfg, s, [ConnectStep(n), DropStep]) == System(rows, full);
    ReplaySplits(rows.events, full.received);
    assert EventsAfter(rows.events, LastId(full.received)) == [];
    ReconnectFinishesIffBehind(cfg, rows, full, 0);
  }

  // ---------------------------------------------------------------- the polling server

  function Max(a: nat, b: nat): nat {
    if a >= b then a else b
  }

  const EMPTY_POLLS_BEFORE_BACKOFF := 5

  class Subscription {
    var lastSeq: nat
    var emptyPolls: nat
    var connected: bool
    var finished: bool
    ghost var received: seq<Frame>

    ghost function View(): Link
      reads this
    {
      Link(received, lastSeq, connected, finished)
    }

    constructor (lastEventId: nat, ghost received: seq<Frame>)
      requires lastEventId == LastId(received)
      ensures View() == Link(received, lastEventId, true, false) && emptyPolls == 0
    {
      lastSeq, emptyPolls, connected, finished := lastEventId, 0, true, false;
      this.received := received;
    }

    /** Yields a batch frame by frame until the client stops reading. */
    method Deliver(log: seq<Event>, cut: nat)
      requires connected && !finished
      modifies this`lastSeq, this`connected, this`finished, this`received
      ensures View() == Receive(old(View()), log, cut)
    {
      var batch := EventsAfter(log, lastSeq);
      FramesAscend(log, lastSeq);
      for i := 0 to |batch|
        invariant connected && !finished && i <= cut
        invariant received == old(received) + batch[..i]
        invariant lastSeq == if i == 0 then old(lastSeq) else batch[i - 1].id
      {
        if i == cut {
          connected := false;
          return;
        }
        lastSeq := Max(lastSeq, batch[i].id);
        received := received + [batch[i]];
      }
      if batch != [] && Last(batch).event.Terminal() {
        connected, finished := false, true;
      }
    }

    method PollOnce(log: seq<Event>, cut: nat) returns (idle: bool)
      requires connected && !finished
      modifies this
      ensures View() == Poll(old(View()), log, cut)
      ensures emptyPolls == if EventsAfter(log, old(lastSeq)) == [] then old(emptyPolls) + 1 else 0
      ensures idle <==> emptyPolls >= EMPTY_POLLS_BEFORE_BACKOFF
    {
      emptyPolls := if EventsAfter(log, lastSeq) == [] then emptyPolls + 1 else 0;
      Deliver(log, cut);
      idle := emptyPolls >= EMPTY_POLLS_BEFORE_BACKOFF;
    }
  }

  // ---------------------------------------------------------------- aggregating deltas

  const DELTA_FLUSH_CHARS := 240
  const DELTA_FLUSH_MILLIS := 400

  function Join(parts: seq<string>): string {
    if parts == [] then "" else Join(parts[..|parts| - 1]) + parts[|parts| - 1]
  }

  lemma {:induction false} JoinConcat(a: seq<string>, b: seq<string>)
    ensures Join(a + b) == Join(a) + Join(b)
  {
    if b == [] {
      assert a + b == a;
    } else {
      var n := |b| - 1;
      assert (a + b)[..|a| + n] == a + b[..n];
      JoinConcat(a, b[..n]);
    }
  }

  /** `_DeltaStreamSink` (app/chat/worker.py:85-114): nothing the provider streams is lost, repeated or reordered. */
  class DeltaSink {
    var parts: seq<string>
    var length: nat
    var lastFlush: int
    var emitted: seq<string>
    ghost var streamed: string

    ghost predicate Valid()
      reads this
    {
      && streamed == Join(emitted) + Join(parts)
      && length == |Join(parts)| < DELTA_FLUSH_CHARS
    }

    constructor (now: int)
      ensures Valid() && streamed == "" && emitted == [] && lastFlush == now
    {
      parts, length, lastFlush, emitted, streamed := [], 0, now, [], "";
    }

    /** What is pending goes out as one delta. */
    method Flush(now: int)
      requires streamed == Join(emitted) + Join(parts) && length == |Join(parts)|
      modifies this
      ensures Valid() && streamed == old(streamed) == Join(emitted) && parts == []
      ensures emitted == if old(parts) == [] then old(emitted) else old(emitted) + [Join(old(parts))]
      ensures old(parts) != [] ==> lastFlush == now
    {
      if parts == [] {
        return;
      }
      var text := Join(parts);
      JoinConcat(emitted, [text]);
      assert [text][..0] == [];
      parts, length, lastFlush := [], 0, now;
      emitted := emitted + [text];
    }

    /** A chunk is kept, and flushed with the rest once there are 240 characters or 0.4 seconds have passed. */
    method Push(text: string, now: int)
      requires Valid()
      modifies this
      ensures Valid() && streamed == old(streamed) + text
      ensures |old(emitted)| <= |emitted| && emitted[..|old(emitted)|] == old(emitted)
      ensures parts == [] <==>
        |Join(old(parts))| + |text| >= DELTA_FLUSH_CHARS || now - old(lastFlush) >= DELTA_FLUSH_MILLIS
    {
      JoinConcat(parts, [text]);
      assert [text][..0] == [];
      parts, length := parts + [text], length + |text|;
      streamed := streamed + text;
      if length >= DELTA_FLUSH_CHARS || now - lastFlush >= DELTA_FLUSH_MILLIS {
        Flush(now);
      }
    }
  }
}

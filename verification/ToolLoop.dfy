/**
 The tool loop of a generation (app/chat/worker.py:2190-2425, 2465-2499): a model
 turn may ask for searches, each search result is put back into the conversation,
 and the model is called again.

 A prompt is its number of characters. What a search returns, what it charges
 besides tokens, and every clock reading are inputs.
*/
module ToolLoop {
  import opened Options
  import opened Budget

  /** One 48,000-character observation, priced like a prompt. */
  const ALLOWANCE: nat := 54_800

  /** Length of the observation that stands in for a search the budget refused. */
  const EXHAUSTED_CHARS: nat := 65

  /** Rounded-up 11/10 of the characters plus 2000. */
  function Estimate(chars: nat): nat {
    (11 * chars + 9) / 10 + 2000
  }

  function Room(m: Meter): int {
    m.policy.maxTotalTokens - m.tokensConsumed - m.tokensReserved
  }

  /** A requested search: the observation it would return, the meter's call and cost counters after it, two clock readings. */
  datatype Call = Call(chars: nat, ragCalls: nat, cost: real, before: int, after: int)

  /** What a whole model turn brings: the tokens it really used, its calls, and three clock readings. */
  datatype ModelTurn = ModelTurn(actual: int, calls: seq<Call>, startedAt: int, offeredAt: int, reservedAt: int)

  /** Searches charge calls and cost to the meter, never tokens. */
  function Searched(m: Meter, call: Call): Meter {
    m.(ragCallsUsed := call.ragCalls, costReserved := call.cost)
  }

  datatype Observed = Observed(chars: nat, meter: Meter, exhausted: bool)

  /** One call of a turn whose prompt has `chars` characters so far. */
  function Observe(m: Meter, pricer: Pricer, chars: nat, call: Call): Observed {
    if Gate(m, pricer, NonRag, Estimate(chars) + ALLOWANCE, call.before).Some? then Observed(chars + EXHAUSTED_CHARS, m, true)
    else
      var after := Searched(m, call);
      if Gate(after, pricer, NonRag, Estimate(chars + call.chars), call.after).Some? then Observed(chars + EXHAUSTED_CHARS, after, true)
      else Observed(chars + call.chars, after, false)
  }

  /** All calls of one turn, in order. */
  function ObserveAll(m: Meter, pricer: Pricer, chars: nat, calls: seq<Call>): Observed
    decreases |calls|
  {
    if calls == [] then Observed(chars, m, false)
    else
      var first := Observe(m, pricer, chars, calls[0]);
      var others := ObserveAll(first.meter, pricer, first.chars, calls[1..]);
      others.(exhausted := first.exhausted || others.exhausted)
  }

  method AnswerCalls(m: Meter, pricer: Pricer, chars: nat, calls: seq<Call>) returns (observed: Observed)
    ensures observed == ObserveAll(m, pricer, chars, calls)
  {
    var meter, total, exhausted := m, chars, false;
    var i := 0;
    while i < |calls|
      invariant 0 <= i <= |calls|
      invariant var others := ObserveAll(meter, pricer, total, calls[i..]);
        ObserveAll(m, pricer, chars, calls) == others.(exhausted := exhausted || others.exhausted)
    {
      ghost var first := Observe(meter, pricer, total, calls[i]);
      assert calls[i..][1..] == calls[i + 1..];
      var observation := EXHAUSTED_CHARS;
      var notice := Gate(meter, pricer, NonRag, Estimate(total) + ALLOWANCE, calls[i].before);
      if notice.None? {
        meter := Searched(meter, calls[i]);
        observation := calls[i].chars;
        notice := Gate(meter, pricer, NonRag, Estimate(total + observation), calls[i].after);
      }
      if notice.Some? {
        exhausted := true;
        observation := EXHAUSTED_CHARS;
      }
      total := total + observation;
      assert first == Observed(total, meter, notice.Some?);
      i := i + 1;
    }
    observed := Observed(total, meter, exhausted);
  }

  lemma {:induction false} ObserveAllKeepsRoom(m: Meter, pricer: Pricer, chars: nat, calls: seq<Call>)
    ensures var o := ObserveAll(m, pricer, chars, calls).meter;
      o.policy == m.policy && o.pending == m.pending && Room(o) == Room(m)
    decreases |calls|
  {
    if calls != [] {
      var first := Observe(m, pricer, chars, calls[0]);
      ObserveAllKeepsRoom(first.meter, pricer, first.chars, calls[1..]);
    }
  }

  // ---------------------------------------------------------------- one turn

  /** `_tool_step_affordable`: this call twice, plus one observation. */
  function Affordable(m: Meter, pricer: Pricer, chars: nat, now: int): bool {
    Gate(m, pricer, NonRag, 2 * Estimate(chars) + ALLOWANCE, now).None?
  }

  /** Reserving and reconciling one model call on a meter with nothing else outstanding. */
  function Called(m: Meter, pricer: Pricer, chars: nat, turn: ModelTurn): Meter
    requires Price(pricer, NonRag, Estimate(chars)).Some?
  {
    var reserved := Reserve(m, pricer, NonRag, Estimate(chars), turn.reservedAt);
    Reconcile(reserved, Price(pricer, NonRag, Estimate(chars)).value, turn.actual, 0.0)
  }

  lemma EstimateGrows(a: nat, b: nat)
    requires a <= b
    ensures Estimate(a) <= Estimate(b)
  {}

  /** Whatever one search brings back, the prompt that carries it fits what is left. */
  lemma OneCallFits(m: Meter, pricer: Pricer, chars: nat, call: Call)
    requires Room(m) >= Estimate(chars) + ALLOWANCE
    ensures TokensFit(m, Estimate(Observe(m, pricer, chars, call).chars))
  {
    var o := Observe(m, pricer, chars, call);
    assert Estimate(chars + EXHAUSTED_CHARS) <= Estimate(chars) + ALLOWANCE;
    if !o.exhausted {
      var after := Searched(m, call);
      assert TokensFit(after, Estimate(chars + call.chars));
    }
  }

  /** The follow-up prompt fits, for any searches of that number, any prices and any clock. */
  ghost predicate FollowUpGuaranteed(m: Meter, chars: nat, calls: nat) {
    forall pricer: Pricer, requested: seq<Call> :: |requested| == calls ==>
      var o := ObserveAll(m, pricer, chars, requested);
      TokensFit(o.meter, Estimate(o.chars))
  }

  /** The longest observation that still fits, found by stepping down from `tooLong`. */
  function LongestFitting(chars: nat, room: int, tooLong: nat): (longest: nat)
    requires Estimate(chars) <= room < Estimate(chars + tooLong)
    ensures Estimate(chars + longest) <= room < Estimate(chars + longest + 1)
    decreases tooLong
  {
    if Estimate(chars + (tooLong - 1)) <= room then tooLong - 1 else LongestFitting(chars, room, tooLong - 1)
  }

  /** Once the prompt has grown past the room by nothing but refusals, it stays past it. */
  lemma {:induction false} RefusalsOverflow(m: Meter, pricer: Pricer, chars: nat, calls: seq<Call>)
    requires calls != [] && Estimate(chars) + ALLOWANCE > Room(m) && Estimate(chars + 1) > Room(m)
    ensures var o := ObserveAll(m, pricer, chars, calls); !TokensFit(o.meter, Estimate(o.chars))
    decreases |calls|
  {
    var first := Observe(m, pricer, chars, calls[0]);
    assert first == Observed(chars + EXHAUSTED_CHARS, m, true);
    EstimateGrows(chars + 1, first.chars);
    if |calls| > 1 {
      EstimateGrows(first.chars, first.chars + 1);
      RefusalsOverflow(m, pricer, first.chars, calls[1..]);
    } else {
      assert ObserveAll(m, pricer, first.chars, calls[1..]) == Observed(first.chars, m, false);
    }
  }

  /** Two searches can break it: the first fills the room exactly, the second is refused but its refusal is still text. */
  lemma TwoCallsOverflow(m: Meter, chars: nat, calls: nat) returns (pricer: Pricer, requested: seq<Call>)
    requires calls >= 2 && Room(m) >= Estimate(chars) + ALLOWANCE && m.costReserved <= m.policy.maxCost
    ensures |requested| == calls
    ensures var o := ObserveAll(m, pricer, chars, requested); !TokensFit(o.meter, Estimate(o.chars))
  {
    pricer := (operation, tokens) => Some(0.0);
    var now := if m.deadline.Some? then m.deadline.value - 1 else 0;
    var longest := LongestFitting(chars, Room(m), Room(m));
    var call := Call(longest, m.ragCallsUsed, m.costReserved, now, now);
    requested := seq(calls, i => call);
    var first := Observe(m, pricer, chars, call);
    assert Searched(m, call) == m;
    assert first == Observed(chars + longest, m, false);
    RefusalsOverflow(m, pricer, first.chars, requested[1..]);
  }

  /**
   A turn that leaves room for its prompt and one observation is sure to be able
   to answer afterwards if and only if it asked for at most one search.
  */
  lemma FollowUpGuaranteedIffOneCall(m: Meter, chars: nat, calls: nat)
    requires Room(m) >= Estimate(chars) + ALLOWANCE && m.costReserved <= m.policy.maxCost
    ensures FollowUpGuaranteed(m, chars, calls) <==> calls <= 1
  {
    if calls >= 2 {
      var pricer, requested := TwoCallsOverflow(m, chars, calls);
    } else {
      forall pricer: Pricer, requested: seq<Call> | |requested| == calls
        ensures var o := ObserveAll(m, pricer, chars, requested); TokensFit(o.meter, Estimate(o.chars))
      {
        if calls == 1 {
          var first := Observe(m, pricer, chars, requested[0]);
          OneCallFits(m, pricer, chars, requested[0]);
          assert ObserveAll(first.meter, pricer, first.chars, requested[1..]) == Observed(first.chars, first.meter, false);
        }
      }
    }
  }

  // ---------------------------------------------------------------- observations of bounded length

  predicate Bounded(calls: seq<Call>, longest: nat) {
    forall i :: 0 <= i < |calls| ==> calls[i].chars <= longest
  }

  /** After that many searches with observations of at most that length the follow-up fits, on any meter that offered them. */
  ghost predicate FollowUpSure(chars: nat, calls: nat, longest: nat) {
    forall m: Meter, pricer: Pricer, requested: seq<Call> ::
      Room(m) >= Estimate(chars) + ALLOWANCE && m.costReserved <= m.policy.maxCost && |requested| == calls && Bounded(requested, longest) ==>
        FitsAfter(m, pricer, chars, requested)
  }

  predicate FitsAfter(m: Meter, pricer: Pricer, chars: nat, requested: seq<Call>) {
    TokensFit(ObserveAll(m, pricer, chars, requested).meter, Estimate(ObserveAll(m, pricer, chars, requested).chars))
  }

  /** One longest observation, and a refusal for each further search, take no more than the allowance. */
  predicate AllowanceCovers(chars: nat, calls: nat, longest: nat) {
    calls <= 1 || Estimate(chars + longest + EXHAUSTED_CHARS * (calls - 1)) <= Estimate(chars) + ALLOWANCE
  }

  /** Where the conversation stands with `left` searches to come: another is allowed, or all of them will be refused. */
  predicate Covered(m: Meter, chars: nat, left: nat, longest: nat) {
    if Room(m) >= Estimate(chars) + ALLOWANCE then AllowanceCovers(chars, left, longest)
    else Estimate(chars + EXHAUSTED_CHARS * left) <= Room(m)
  }

  lemma ObserveCovered(m: Meter, pricer: Pricer, chars: nat, call: Call, left: nat, longest: nat)
    requires Covered(m, chars, left + 1, longest) && left >= 1 && EXHAUSTED_CHARS <= longest && call.chars <= longest
    ensures var o := Observe(m, pricer, chars, call); Room(o.meter) == Room(m) && Covered(o.meter, o.chars, left, longest)
  {
    var o := Observe(m, pricer, chars, call);
    if Room(m) >= Estimate(chars) + ALLOWANCE {
      EstimateGrows(o.chars + EXHAUSTED_CHARS * left, chars + longest + EXHAUSTED_CHARS * left);
      if left >= 2 {
        assert o.chars + longest + EXHAUSTED_CHARS * (left - 1) + EXHAUSTED_CHARS == o.chars + longest + EXHAUSTED_CHARS * left;
      }
    } else {
      assert o.chars == chars + EXHAUSTED_CHARS;
    }
  }

  lemma LastFits(m: Meter, pricer: Pricer, chars: nat, call: Call, longest: nat)
    requires Covered(m, chars, 1, longest)
    ensures TokensFit(m, Estimate(Observe(m, pricer, chars, call).chars))
  {
    if Room(m) >= Estimate(chars) + ALLOWANCE { OneCallFits(m, pricer, chars, call); }
  }

  lemma {:induction false} CoveredFits(m: Meter, pricer: Pricer, chars: nat, calls: seq<Call>, longest: nat)
    requires Covered(m, chars, |calls|, longest) && EXHAUSTED_CHARS <= longest && Bounded(calls, longest)
    ensures FitsAfter(m, pricer, chars, calls)
    decreases |calls|
  {
    if calls != [] {
      var first := Observe(m, pricer, chars, calls[0]);
      if |calls| == 1 {
        LastFits(m, pricer, chars, calls[0], longest);
        assert ObserveAll(first.meter, pricer, first.chars, calls[1..]) == Observed(first.chars, first.meter, false);
      } else {
        ObserveCovered(m, pricer, chars, calls[0], |calls| - 1, longest);
        CoveredFits(first.meter, pricer, first.chars, calls[1..], longest);
      }
    }
  }

  /** A meter with just the room that an offer needs. */
  function TightMeter(chars: nat): Meter {
    NewMeter(Policy(Quick, 0, Estimate(chars) + ALLOWANCE, 0.0), None)
  }

  lemma {:induction false} RefusalsAdd(m: Meter, pricer: Pricer, chars: nat, calls: seq<Call>)
    requires Room(m) < Estimate(chars) + ALLOWANCE
    ensures ObserveAll(m, pricer, chars, calls).meter == m && ObserveAll(m, pricer, chars, calls).chars == chars + EXHAUSTED_CHARS * |calls|
    decreases |calls|
  {
    if calls != [] {
      EstimateGrows(chars, chars + EXHAUSTED_CHARS);
      RefusalsAdd(m, pricer, chars + EXHAUSTED_CHARS, calls[1..]);
    }
  }

  /** The longest observation that the bound and the room both admit leaves no room for another, when the allowance does not cover. */
  lemma FillsRoom(chars: nat, calls: nat, longest: nat) returns (fits: nat)
    requires EXHAUSTED_CHARS <= longest && !AllowanceCovers(chars, calls, longest)
    ensures 1 <= fits <= longest && Estimate(chars + fits) <= Estimate(chars) + ALLOWANCE
    ensures Estimate(chars + fits + EXHAUSTED_CHARS * (calls - 1)) > Estimate(chars) + ALLOWANCE
  {
    var room := Estimate(chars) + ALLOWANCE;
    if Estimate(chars + longest) <= room {
      fits := longest;
    } else {
      fits := LongestFitting(chars, room, longest);
      EstimateGrows(chars + fits + 1, chars + fits + EXHAUSTED_CHARS * (calls - 1));
    }
  }

  lemma UncoveredOverflows(chars: nat, calls: nat, longest: nat)
    requires EXHAUSTED_CHARS <= longest && !AllowanceCovers(chars, calls, longest)
    ensures !FollowUpSure(chars, calls, longest)
  {
    var fits := FillsRoom(chars, calls, longest);
    var pricer: Pricer := (operation, tokens) => Some(0.0);
    var requested := seq(calls, i => Call(fits, 0, 0.0, 0, 0));
    TightOverflows(chars, fits, pricer, requested);
    assert !FitsAfter(TightMeter(chars), pricer, chars, requested);
  }

  lemma TightOverflows(chars: nat, fits: nat, pricer: Pricer, requested: seq<Call>)
    requires requested != [] && requested[0] == Call(fits, 0, 0.0, 0, 0) && fits >= 1
    requires forall operation, tokens :: pricer(operation, tokens) == Some(0.0)
    requires Estimate(chars + fits) <= Estimate(chars) + ALLOWANCE < Estimate(chars + fits + EXHAUSTED_CHARS * (|requested| - 1))
    ensures !FitsAfter(TightMeter(chars), pricer, chars, requested)
  {
    var m := TightMeter(chars);
    assert Searched(m, requested[0]) == m && Observe(m, pricer, chars, requested[0]) == Observed(chars + fits, m, false);
    EstimateGrows(chars + 1, chars + fits);
    RefusalsAdd(m, pricer, chars + fits, requested[1..]);
  }

  /** For observations of bounded length the follow-up is sure if and only if the allowance covers one of them and the refusals. */
  lemma FollowUpSureIffCovered(chars: nat, calls: nat, longest: nat)
    requires EXHAUSTED_CHARS <= longest
    ensures FollowUpSure(chars, calls, longest) <==> AllowanceCovers(chars, calls, longest)
  {
    if AllowanceCovers(chars, calls, longest) {
      forall m: Meter, pricer: Pricer, requested: seq<Call> |
        Room(m) >= Estimate(chars) + ALLOWANCE && m.costReserved <= m.policy.maxCost && |requested| == calls && Bounded(requested, longest)
        ensures FitsAfter(m, pricer, chars, requested)
      {
        CoveredFits(m, pricer, chars, requested, longest);
      }
    } else {
      UncoveredOverflows(chars, calls, longest);
    }
  }

  /** With observations of the length that the allowance is made for, up to 28 searches a turn are safe, and no more. */
  lemma TwentyEightSearches(chars: nat, calls: nat)
    ensures FollowUpSure(chars, calls, 48_000) <==> calls <= 28
  {
    FollowUpSureIffCovered(chars, calls, 48_000);
    if calls >= 29 { EstimateGrows(chars + 48_000 + EXHAUSTED_CHARS * 28, chars + 48_000 + EXHAUSTED_CHARS * (calls - 1)); }
    if 1 <= calls <= 28 { EstimateGrows(chars + 48_000 + EXHAUSTED_CHARS * (calls - 1), chars + 48_000 + EXHAUSTED_CHARS * 27); }
  }

  // ---------------------------------------------------------------- the whole loop

  datatype End = Answered | Expired | Refused(tokens: bool) | Unfinished

  datatype Limits = Limits(maxSteps: nat, deadline: int)

  /** The searches of this turn are run and the model is called again. */
  predicate Continues(m: Meter, pricer: Pricer, chars: nat, tools: bool, step: nat, limits: Limits, turn: ModelTurn) {
    && turn.startedAt < limits.deadline && Gate(m, pricer, NonRag, Estimate(chars), turn.reservedAt).None?
    && turn.calls != [] && tools && step + 1 < limits.maxSteps && Affordable(m, pricer, chars, turn.offeredAt)
  }

  /** The model turns of one candidate. `tools` is dropped for good once a search was refused. */
  function Loop(m: Meter, pricer: Pricer, chars: nat, tools: bool, step: nat, limits: Limits, turns: seq<ModelTurn>): End
    decreases |turns|
  {
    if turns == [] then Unfinished
    else if turns[0].startedAt >= limits.deadline then Expired
    else if Gate(m, pricer, NonRag, Estimate(chars), turns[0].reservedAt).Some? then Refused(!TokensFit(m, Estimate(chars)))
    else if !Continues(m, pricer, chars, tools, step, limits, turns[0]) then Answered
    else
      var observed := ObserveAll(Called(m, pricer, chars, turns[0]), pricer, chars, turns[0].calls);
      Loop(observed.meter, pricer, observed.chars, tools && !observed.exhausted, step + 1, limits, turns[1..])
  }

  /** Every turn whose searches are run used at most its estimate and asked for one search. */
  predicate Modest(m: Meter, pricer: Pricer, chars: nat, tools: bool, step: nat, limits: Limits, turns: seq<ModelTurn>)
    decreases |turns|
  {
    turns != [] && Continues(m, pricer, chars, tools, step, limits, turns[0]) ==>
      && |turns[0].calls| == 1 && turns[0].actual <= Estimate(chars)
      && var observed := ObserveAll(Called(m, pricer, chars, turns[0]), pricer, chars, turns[0].calls);
         Modest(observed.meter, pricer, observed.chars, tools && !observed.exhausted, step + 1, limits, turns[1..])
  }

  /**
   Over a whole run of modest turns, once the first prompt fits, no later prompt
   is ever turned away for want of tokens.
  */
  lemma {:induction false} LoopNeverOutOfTokens(m: Meter, pricer: Pricer, chars: nat, tools: bool, step: nat, limits: Limits, turns: seq<ModelTurn>)
    requires m.pending == [] && TokensFit(m, Estimate(chars))
    requires Modest(m, pricer, chars, tools, step, limits, turns)
    ensures Loop(m, pricer, chars, tools, step, limits, turns) != Refused(true)
    decreases |turns|
  {
    if turns != [] && Continues(m, pricer, chars, tools, step, limits, turns[0]) {
      var turn := turns[0];
      var called := Called(m, pricer, chars, turn);
      assert Room(m) >= 2 * Estimate(chars) + ALLOWANCE;
      OneCallFits(called, pricer, chars, turn.calls[0]);
      var observed := ObserveAll(called, pricer, chars, turn.calls);
      var first := Observe(called, pricer, chars, turn.calls[0]);
      assert ObserveAll(first.meter, pricer, first.chars, turn.calls[1..]) == Observed(first.chars, first.meter, false);
      ObserveAllKeepsRoom(called, pricer, chars, turn.calls);
      LoopNeverOutOfTokens(observed.meter, pricer, observed.chars, tools && !observed.exhausted, step + 1, limits, turns[1..]);
    }
  }

  method RunCandidate(m: Meter, pricer: Pricer, prompt: nat, limits: Limits, turns: seq<ModelTurn>) returns (end: End)
    ensures end == Loop(m, pricer, prompt, true, 0, limits, turns)
  {
    var meter, chars, tools, step := m, prompt, true, 0;
    while step < |turns|
      invariant 0 <= step <= |turns|
      invariant Loop(m, pricer, prompt, true, 0, limits, turns) == Loop(meter, pricer, chars, tools, step, limits, turns[step..])
    {
      var turn := turns[step];
      assert turns[step..][1..] == turns[step + 1..];
      var offer := tools && step + 1 < limits.maxSteps && Affordable(meter, pricer, chars, turn.offeredAt);
      if turn.startedAt >= limits.deadline {
        return Expired;
      }
      if Gate(meter, pricer, NonRag, Estimate(chars), turn.reservedAt).Some? {
        return Refused(!TokensFit(meter, Estimate(chars)));
      }
      meter := Called(meter, pricer, chars, turn);
      if turn.calls == [] || !offer {
        return Answered;
      }
      var observed := AnswerCalls(meter, pricer, chars, turn.calls);
      meter, chars := observed.meter, observed.chars;
      tools := tools && !observed.exhausted;
      step := step + 1;
    }
    return Unfinished;
  }

  /**
   What a fresh budget has room for: a quick answer on up to 70,909 characters,
   a tool step on up to 46,000 in the think tier and 118,727 in the deep one.
  */
  lemma FreshRoom(chars: nat, maxCost: real, deadline: Option<int>)
    ensures TokensFit(NewMeter(ForEffort(Quick, maxCost), deadline), Estimate(chars)) <==> chars <= 70_909
    ensures TokensFit(NewMeter(ForEffort(Think, maxCost), deadline), 2 * Estimate(chars) + ALLOWANCE) <==> chars <= 46_000
    ensures TokensFit(NewMeter(ForEffort(Deep, maxCost), deadline), 2 * Estimate(chars) + ALLOWANCE) <==> chars <= 118_727
  {}
}

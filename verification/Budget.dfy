/**
 The logical budget of one generation (app/chat/budget.py:210-360): a gate,
 reservations before a provider call, reconciliation after it.

 Costs are reals. The pricer is a port: a fixed function from an operation and a
 token count to a price, or None when it cannot estimate.
*/
module Budget {
  import opened Options

  datatype Operation = Retrieval | Rewrite | Tree | NonRag
  datatype Effort = Quick | Think | Deep
  datatype Reason = BudgetExhausted | CostUnavailable
  datatype Policy = Policy(effort: Effort, maxRagCalls: nat, maxTotalTokens: nat, maxCost: real)
  type Pricer = (Operation, nat) -> Option<real>

  datatype Reservation = Reservation(cost: real, tokens: nat)

  /**
   `estimates` and `actuals` are the totals reserved and reconciled so far; the
   meter itself stores only what the source stores.
  */
  datatype Meter = Meter(
    policy: Policy, ragCallsUsed: nat, tokensUsed: nat, tokensConsumed: nat, tokensReserved: nat,
    costReserved: real, costSpent: real, deadline: Option<int>, upgradedOnce: bool,
    pending: seq<Reservation>, estimates: nat, actuals: nat)

  function ForEffort(effort: Effort, maxCost: real): Policy {
    match effort
    case Quick => Policy(Quick, 1, 80_000, maxCost)
    case Think => Policy(Think, 8, 160_000, maxCost)
    case Deep => Policy(Deep, 10, 320_000, maxCost)
  }

  function NewMeter(policy: Policy, deadline: Option<int>): Meter {
    Meter(policy, 0, 0, 0, 0, 0.0, 0.0, deadline, false, [], 0, 0)
  }

  function Max0(x: int): nat {
    if x > 0 then x else 0
  }

  function Price(pricer: Pricer, operation: Operation, tokens: int): Option<real> {
    var estimate := pricer(operation, Max0(tokens));
    if estimate.Some? && estimate.value >= 0.0 then estimate else None
  }

  predicate TokensFit(m: Meter, estimate: int) {
    m.tokensConsumed + m.tokensReserved + Max0(estimate) <= m.policy.maxTotalTokens
  }

  /** The notice that stops an operation, or None when it may go out. */
  function Gate(m: Meter, pricer: Pricer, operation: Operation, estimate: int, now: int): Option<Reason> {
    if !operation.NonRag? && m.ragCallsUsed >= m.policy.maxRagCalls then Some(BudgetExhausted)
    else if m.deadline.Some? && now >= m.deadline.value then Some(BudgetExhausted)
    else if !TokensFit(m, estimate) then Some(BudgetExhausted)
    else
      var price := Price(pricer, operation, estimate);
      if price.None? then Some(CostUnavailable)
      else if m.costReserved + price.value > m.policy.maxCost then Some(BudgetExhausted)
      else None
  }

  /** The meter with one more reservation, whether it fits or not. */
  function WithReservation(m: Meter, operation: Operation, tokens: nat, price: real): Meter {
    m.(ragCallsUsed := if operation.NonRag? then m.ragCallsUsed else m.ragCallsUsed + 1,
       tokensUsed := m.tokensUsed + tokens, tokensReserved := m.tokensReserved + tokens,
       costReserved := m.costReserved + price, pending := m.pending + [Reservation(price, tokens)],
       estimates := m.estimates + tokens)
  }

  /** A refused reservation raises and leaves the meter as it was. */
  function Reserve(m: Meter, pricer: Pricer, operation: Operation, estimate: int, now: int): Meter {
    if Gate(m, pricer, operation, estimate, now).Some? then m
    else WithReservation(m, operation, Max0(estimate), Price(pricer, operation, estimate).value)
  }

  /** The first pending reservation of that very cost, or the length of the list. */
  function FirstOfCost(pending: seq<Reservation>, cost: real): (i: nat)
    ensures i <= |pending|
    ensures i < |pending| ==> pending[i].cost == cost
    ensures forall k :: 0 <= k < i ==> pending[k].cost != cost
  {
    if pending == [] || pending[0].cost == cost then 0 else 1 + FirstOfCost(pending[1..], cost)
  }

  function FirstTokens(pending: seq<Reservation>, cost: real): nat {
    var i := FirstOfCost(pending, cost);
    if i < |pending| then pending[i].tokens else 0
  }

  function WithoutFirst(pending: seq<Reservation>, cost: real): seq<Reservation> {
    var i := FirstOfCost(pending, cost);
    if i < |pending| then pending[..i] + pending[i + 1..] else pending
  }

  /** `reconcile`: the reservation is looked up by its cost alone. */
  function Reconcile(m: Meter, cost: real, actualTokens: int, actualCost: real): Meter {
    var actual := Max0(actualTokens);
    m.(tokensReserved := Max0(m.tokensReserved - FirstTokens(m.pending, cost)),
       pending := WithoutFirst(m.pending, cost),
       tokensUsed := m.tokensUsed + actual, tokensConsumed := m.tokensConsumed + actual,
       costReserved := if m.costReserved - cost > 0.0 then m.costReserved - cost else 0.0,
       costSpent := if actualCost > 0.0 then m.costSpent + actualCost else m.costSpent,
       actuals := m.actuals + actual)
  }

  /** One level up (quick to think, think to deep), once. */
  function Upgrade(m: Meter, policy: Policy): Meter {
    if m.upgradedOnce || policy.effort == m.policy.effort then m
    else if (m.policy.effort == Quick && policy.effort == Think) || (m.policy.effort == Think && policy.effort == Deep) then
      m.(policy := policy, upgradedOnce := true)
    else m
  }

  // ---------------------------------------------------------------- conservation

  function TokenSum(pending: seq<Reservation>): nat {
    if pending == [] then 0 else pending[0].tokens + TokenSum(pending[1..])
  }

  function CostSum(pending: seq<Reservation>): real {
    if pending == [] then 0.0 else pending[0].cost + CostSum(pending[1..])
  }

  lemma {:induction false} SumsAppend(pending: seq<Reservation>, last: Reservation)
    ensures TokenSum(pending + [last]) == TokenSum(pending) + last.tokens
    ensures CostSum(pending + [last]) == CostSum(pending) + last.cost
  {
    if pending == [] {
      assert (pending + [last])[1..] == [];
    } else {
      assert (pending + [last])[1..] == pending[1..] + [last];
      SumsAppend(pending[1..], last);
    }
  }

  lemma {:induction false} SumsRemove(pending: seq<Reservation>, i: nat)
    requires i < |pending|
    ensures TokenSum(pending[..i] + pending[i + 1..]) == TokenSum(pending) - pending[i].tokens
    ensures CostSum(pending[..i] + pending[i + 1..]) == CostSum(pending) - pending[i].cost
  {
    if i == 0 {
      assert pending[..0] + pending[1..] == pending[1..];
    } else {
      assert (pending[..i] + pending[i + 1..])[1..] == pending[1..][..i - 1] + pending[1..][i..];
      SumsRemove(pending[1..], i - 1);
    }
  }

  lemma {:induction false} CostSumNonNegative(pending: seq<Reservation>)
    requires forall k :: 0 <= k < |pending| ==> pending[k].cost >= 0.0
    ensures CostSum(pending) >= 0.0
  {
    if pending != [] { CostSumNonNegative(pending[1..]); }
  }

  /** The counters are exactly the sums over what is outstanding and over what has happened. */
  predicate Conserved(m: Meter) {
    && m.tokensReserved == TokenSum(m.pending)
    && m.costReserved == CostSum(m.pending)
    && m.tokensUsed == m.estimates + m.actuals
    && m.tokensConsumed == m.actuals
    && (forall k :: 0 <= k < |m.pending| ==> m.pending[k].cost >= 0.0)
  }

  predicate WithinCaps(m: Meter) {
    m.ragCallsUsed <= m.policy.maxRagCalls && m.costReserved <= m.policy.maxCost
  }

  predicate WithinTokens(m: Meter) {
    m.tokensConsumed + m.tokensReserved <= m.policy.maxTotalTokens
  }

  predicate Widens(from: Policy, to: Policy) {
    from.maxRagCalls <= to.maxRagCalls && from.maxTotalTokens <= to.maxTotalTokens && from.maxCost <= to.maxCost
  }

  function CountOfCost(pending: seq<Reservation>, cost: real): nat {
    if pending == [] then 0 else (if pending[0].cost == cost then 1 else 0) + CountOfCost(pending[1..], cost)
  }

  /**
   The meter together with what its callers know: `held` are the reservations
   handed out and not yet settled by their owners, `origins` the operations that
   the pending ones were made for, entry by entry. The meter knows neither.
  */
  datatype Ledger = Ledger(meter: Meter, held: seq<Reservation>, origins: seq<Operation>)

  /** Owner `k` settles its own reservation. */
  datatype Step =
    | ReserveStep(operation: Operation, estimate: int, now: int)
    | SettleStep(k: nat, actualTokens: int, actualCost: real)
    | UpgradeStep(policy: Policy)

  predicate Legal(s: Ledger, step: Step) {
    match step
    case ReserveStep(operation, estimate, now) => true
    case SettleStep(k, actualTokens, actualCost) => k < |s.held|
    case UpgradeStep(policy) => Widens(s.meter.policy, policy)
  }

  function Apply(s: Ledger, pricer: Pricer, step: Step): Ledger
    requires Legal(s, step)
  {
    match step
    case ReserveStep(operation, estimate, now) =>
      var after := Reserve(s.meter, pricer, operation, estimate, now);
      if |after.pending| > |s.meter.pending| then Ledger(after, s.held + [after.pending[|after.pending| - 1]], s.origins + [operation])
      else Ledger(after, s.held, s.origins)
    case SettleStep(k, actualTokens, actualCost) =>
      var i := FirstOfCost(s.meter.pending, s.held[k].cost);
      Ledger(Reconcile(s.meter, s.held[k].cost, actualTokens, actualCost), s.held[..k] + s.held[k + 1..],
             if i < |s.origins| then s.origins[..i] + s.origins[i + 1..] else s.origins)
    case UpgradeStep(policy) => s.(meter := Upgrade(s.meter, policy))
  }

  ghost predicate LegalRun(s: Ledger, pricer: Pricer, steps: seq<Step>)
    decreases |steps|
  {
    steps == [] || (Legal(s, steps[0]) && LegalRun(Apply(s, pricer, steps[0]), pricer, steps[1..]))
  }

  ghost function Run(s: Ledger, pricer: Pricer, steps: seq<Step>): Meter
    requires LegalRun(s, pricer, steps)
    decreases |steps|
  {
    if steps == [] then s.meter else Run(Apply(s, pricer, steps[0]), pricer, steps[1..])
  }

  /** The meter lists as many reservations of each cost as its callers hold. */
  ghost predicate CostsAgree(s: Ledger) {
    forall cost :: CountOfCost(s.meter.pending, cost) == CountOfCost(s.held, cost)
  }

  lemma {:induction false} CountAppend(pending: seq<Reservation>, last: Reservation, cost: real)
    ensures CountOfCost(pending + [last], cost) == CountOfCost(pending, cost) + if last.cost == cost then 1 else 0
  {
    if pending == [] {
      assert (pending + [last])[1..] == [];
    } else {
      assert (pending + [last])[1..] == pending[1..] + [last];
      CountAppend(pending[1..], last, cost);
    }
  }

  lemma {:induction false} CountRemove(pending: seq<Reservation>, i: nat, cost: real)
    requires i < |pending|
    ensures CountOfCost(pending[..i] + pending[i + 1..], cost) == CountOfCost(pending, cost) - if pending[i].cost == cost then 1 else 0
    ensures CountOfCost(pending, pending[i].cost) > 0
  {
    if i == 0 {
      assert pending[..0] + pending[1..] == pending[1..];
    } else {
      assert (pending[..i] + pending[i + 1..])[1..] == pending[1..][..i - 1] + pending[1..][i..];
      CountRemove(pending[1..], i - 1, cost);
    }
  }

  lemma {:induction false} CountFinds(pending: seq<Reservation>, cost: real)
    requires CountOfCost(pending, cost) > 0
    ensures FirstOfCost(pending, cost) < |pending|
  {
    if pending[0].cost != cost { CountFinds(pending[1..], cost); }
  }

  ghost predicate LedgerInv(s: Ledger) {
    Conserved(s.meter) && WithinCaps(s.meter) && CostsAgree(s)
  }

  lemma ReserveKeeps(s: Ledger, pricer: Pricer, step: Step)
    requires LedgerInv(s) && step.ReserveStep?
    ensures LedgerInv(Apply(s, pricer, step))
  {
    var m := s.meter;
    if Gate(m, pricer, step.operation, step.estimate, step.now).None? {
      var added := Reservation(Price(pricer, step.operation, step.estimate).value, Max0(step.estimate));
      SumsAppend(m.pending, added);
      forall cost ensures CountOfCost(m.pending + [added], cost) == CountOfCost(s.held + [added], cost) {
        CountAppend(m.pending, added, cost);
        CountAppend(s.held, added, cost);
      }
    }
  }

  /** Settling releases the tokens of the first listed reservation of that cost, whoever holds it. */
  lemma SettleKeeps(s: Ledger, pricer: Pricer, step: Step)
    requires LedgerInv(s) && step.SettleStep? && Legal(s, step)
    ensures LedgerInv(Apply(s, pricer, step))
    ensures FirstOfCost(s.meter.pending, s.held[step.k].cost) < |s.meter.pending|
    ensures var m, n := s.meter, Apply(s, pricer, step).meter;
      n.tokensConsumed + n.tokensReserved ==
      m.tokensConsumed + m.tokensReserved + Max0(step.actualTokens) - m.pending[FirstOfCost(m.pending, s.held[step.k].cost)].tokens
  {
    var m, k := s.meter, step.k;
    CountRemove(s.held, k, s.held[k].cost);
    CountFinds(m.pending, s.held[k].cost);
    var i := FirstOfCost(m.pending, s.held[k].cost);
    var rest := m.pending[..i] + m.pending[i + 1..];
    SumsRemove(m.pending, i);
    CostSumNonNegative(rest);
    forall cost ensures CountOfCost(rest, cost) == CountOfCost(s.held[..k] + s.held[k + 1..], cost) {
      CountRemove(m.pending, i, cost);
      CountRemove(s.held, k, cost);
    }
  }

  lemma StepKeepsLedger(s: Ledger, pricer: Pricer, step: Step)
    requires LedgerInv(s) && Legal(s, step)
    ensures LedgerInv(Apply(s, pricer, step))
  {
    match step
    case ReserveStep(operation, estimate, now) => ReserveKeeps(s, pricer, step);
    case SettleStep(k, actualTokens, actualCost) => SettleKeeps(s, pricer, step);
    case UpgradeStep(policy) =>
  }

  /**
   Over any run in which every owner settles its own reservation: the reserved
   counters are the sums of what is pending, the used tokens are all estimates
   plus all actuals, and RAG calls and reserved cost stay within their caps.
  */
  lemma {:induction false} RunConserves(s: Ledger, pricer: Pricer, steps: seq<Step>)
    requires LedgerInv(s) && LegalRun(s, pricer, steps)
    ensures Conserved(Run(s, pricer, steps)) && WithinCaps(Run(s, pricer, steps))
    decreases |steps|
  {
    if steps != [] {
      StepKeepsLedger(s, pricer, steps[0]);
      RunConserves(Apply(s, pricer, steps[0]), pricer, steps[1..]);
    }
  }

  function NewLedger(policy: Policy, deadline: Option<int>): Ledger {
    Ledger(NewMeter(policy, deadline), [], [])
  }

  /** A new meter, with nothing handed out, is lawful. */
  lemma NewLedgerHolds(policy: Policy, deadline: Option<int>, pricer: Pricer)
    requires policy.maxCost >= 0.0
    ensures LedgerInv(NewLedger(policy, deadline)) && WithinTokens(NewMeter(policy, deadline))
    ensures PendingHolds(NewLedger(policy, deadline), pricer)
  {}

  // ---------------------------------------------------------------- the token cap

  function Rags(operation: Operation): nat {
    if operation.NonRag? then 0 else 1
  }

  function RagSum(origins: seq<Operation>): nat {
    if origins == [] then 0 else Rags(origins[0]) + RagSum(origins[1..])
  }

  /** Reservations of these operations and sizes fit the policy side by side. */
  predicate CanPendTogether(policy: Policy, a: Operation, s: nat, b: Operation, t: nat) {
    s + t <= policy.maxTotalTokens && Rags(a) + Rags(b) <= policy.maxRagCalls
  }

  /** Reservations that can be pending together and have equal prices have equal sizes. */
  ghost predicate Separates(pricer: Pricer, policy: Policy) {
    forall a, b, s: nat, t: nat {:trigger Price(pricer, a, s), Price(pricer, b, t)} ::
      CanPendTogether(policy, a, s, b, t) && Price(pricer, a, s).Some? && Price(pricer, a, s) == Price(pricer, b, t) ==> s == t
  }

  /** Each pending entry has the price of its operation and size. */
  predicate PricedFor(pending: seq<Reservation>, origins: seq<Operation>, pricer: Pricer) {
    && |origins| == |pending|
    && (forall i :: 0 <= i < |origins| ==> Price(pricer, origins[i], pending[i].tokens) == Some(pending[i].cost))
  }

  lemma PricedForRemove(pending: seq<Reservation>, origins: seq<Operation>, pricer: Pricer, i: nat)
    requires PricedFor(pending, origins, pricer) && i < |pending|
    ensures PricedFor(pending[..i] + pending[i + 1..], origins[..i] + origins[i + 1..], pricer)
  {
    var rest, from := pending[..i] + pending[i + 1..], origins[..i] + origins[i + 1..];
    forall j | 0 <= j < |rest| ensures Price(pricer, from[j], rest[j].tokens) == Some(rest[j].cost) {
      var was := if j < i then j else j + 1;
      assert rest[j] == pending[was] && from[j] == origins[was];
    }
  }

  /** The gate admits an operation, in time and with a price, exactly when every cap still holds with it on the books. */
  lemma GateIsRoom(m: Meter, pricer: Pricer, operation: Operation, estimate: int, now: int)
    requires WithinCaps(m)
    ensures Gate(m, pricer, operation, estimate, now).None? <==>
      && (m.deadline.None? || now < m.deadline.value)
      && Price(pricer, operation, estimate).Some?
      && WithinCaps(WithReservation(m, operation, Max0(estimate), Price(pricer, operation, estimate).value))
      && WithinTokens(WithReservation(m, operation, Max0(estimate), Price(pricer, operation, estimate).value))
  {}

  /** The meter lists exactly what is held, each entry priced for its operation and counted among the RAG calls. */
  ghost predicate PendingHolds(s: Ledger, pricer: Pricer) {
    Listed(s.meter.pending, s.held, s.origins, s.meter.ragCallsUsed, pricer)
  }

  lemma {:induction false} RagSumAppend(origins: seq<Operation>, last: Operation)
    ensures RagSum(origins + [last]) == RagSum(origins) + Rags(last)
  {
    if origins == [] {
      assert ([] + [last])[1..] == [];
    } else {
      assert (origins + [last])[1..] == origins[1..] + [last];
      RagSumAppend(origins[1..], last);
    }
  }

  lemma {:induction false} RagSumRemove(origins: seq<Operation>, i: nat)
    requires i < |origins|
    ensures RagSum(origins[..i] + origins[i + 1..]) == RagSum(origins) - Rags(origins[i])
  {
    if i == 0 {
      assert origins[..0] + origins[1..] == origins[1..];
    } else {
      assert (origins[..i] + origins[i + 1..])[1..] == origins[1..][..i - 1] + origins[1..][i..];
      RagSumRemove(origins[1..], i - 1);
    }
  }

  /** Two different entries are together no more than all of them. */
  lemma TwoWithinSums(pending: seq<Reservation>, origins: seq<Operation>, i: nat, j: nat)
    requires i < j < |pending| == |origins|
    ensures pending[i].tokens + pending[j].tokens <= TokenSum(pending)
    ensures Rags(origins[i]) + Rags(origins[j]) <= RagSum(origins)
  {
    SumsRemove(pending, j);
    SumsRemove(pending[..j] + pending[j + 1..], i);
    RagSumRemove(origins, j);
    RagSumRemove(origins[..j] + origins[j + 1..], i);
  }

  lemma RemoveOne<T>(s: seq<T>, i: nat)
    requires i < |s|
    ensures multiset(s[..i] + s[i + 1..]) == multiset(s) - multiset{s[i]}
  {
    assert s == s[..i] + [s[i]] + s[i + 1..];
  }

  /** The entry released for owner `k` is its own, or one just like it. */
  lemma ReleasesItsLike(s: Ledger, pricer: Pricer, widest: Policy, k: nat)
    requires LedgerInv(s) && WithinTokens(s.meter) && PendingHolds(s, pricer) && k < |s.held|
    requires Separates(pricer, widest) && Widens(s.meter.policy, widest)
    ensures FirstOfCost(s.meter.pending, s.held[k].cost) < |s.meter.pending|
    ensures s.meter.pending[FirstOfCost(s.meter.pending, s.held[k].cost)] == s.held[k]
  {
    var pending, r := s.meter.pending, s.held[k];
    assert r in multiset(pending);
    var j :| 0 <= j < |pending| && pending[j] == r;
    var i := FirstOfCost(pending, r.cost);
    if i < j {
      TwoWithinSums(pending, s.origins, i, j);
      assert CanPendTogether(widest, s.origins[i], pending[i].tokens, s.origins[j], r.tokens);
      assert Price(pricer, s.origins[i], pending[i].tokens) == Price(pricer, s.origins[j], r.tokens);
    }
  }

  /** A settlement uses at most what was estimated. */
  predicate WithinEstimate(s: Ledger, step: Step)
    requires Legal(s, step)
  {
    step.SettleStep? ==> step.actualTokens <= s.held[step.k].tokens
  }

  predicate UpgradesWithin(step: Step, widest: Policy) {
    step.UpgradeStep? ==> Widens(step.policy, widest)
  }

  ghost predicate ModestRun(s: Ledger, pricer: Pricer, steps: seq<Step>, widest: Policy)
    requires LegalRun(s, pricer, steps)
    decreases |steps|
  {
    steps == [] || (WithinEstimate(s, steps[0]) && UpgradesWithin(steps[0], widest) &&
                    ModestRun(Apply(s, pricer, steps[0]), pricer, steps[1..], widest))
  }

  lemma ReserveKeepsPending(s: Ledger, pricer: Pricer, step: Step)
    requires LedgerInv(s) && WithinTokens(s.meter) && PendingHolds(s, pricer) && step.ReserveStep?
    ensures WithinTokens(Apply(s, pricer, step).meter) && PendingHolds(Apply(s, pricer, step), pricer)
  {
    if Gate(s.meter, pricer, step.operation, step.estimate, step.now).None? {
      var added := Reservation(Price(pricer, step.operation, step.estimate).value, Max0(step.estimate));
      RagSumAppend(s.origins, step.operation);
      assert Price(pricer, step.operation, added.tokens) == Some(added.cost);
    }
  }

  lemma SettleKeepsTokens(s: Ledger, pricer: Pricer, step: Step, widest: Policy)
    requires LedgerInv(s) && WithinTokens(s.meter) && PendingHolds(s, pricer) && step.SettleStep? && Legal(s, step)
    requires Separates(pricer, widest) && Widens(s.meter.policy, widest) && WithinEstimate(s, step)
    ensures WithinTokens(Apply(s, pricer, step).meter)
  {
    ReleasesItsLike(s, pricer, widest, step.k);
    SettleKeeps(s, pricer, step);
  }

  /** Removing one entry and the like of it elsewhere keeps the lists matched. */
  lemma MatchedRemove(pending: seq<Reservation>, held: seq<Reservation>, i: nat, k: nat)
    requires multiset(pending) == multiset(held) && i < |pending| && k < |held| && pending[i] == held[k]
    ensures multiset(pending[..i] + pending[i + 1..]) == multiset(held[..k] + held[k + 1..])
  {
    RemoveOne(pending, i);
    RemoveOne(held, k);
  }

  /** What is known of the lists, entry by entry. */
  ghost predicate Listed(pending: seq<Reservation>, held: seq<Reservation>, origins: seq<Operation>, rags: nat, pricer: Pricer) {
    PricedFor(pending, origins, pricer) && RagSum(origins) <= rags && multiset(pending) == multiset(held)
  }

  lemma ListedRemove(pending: seq<Reservation>, held: seq<Reservation>, origins: seq<Operation>, rags: nat, pricer: Pricer, i: nat, k: nat)
    requires Listed(pending, held, origins, rags, pricer) && i < |pending| && k < |held| && pending[i] == held[k]
    ensures Listed(pending[..i] + pending[i + 1..], held[..k] + held[k + 1..], origins[..i] + origins[i + 1..], rags, pricer)
  {
    RagSumRemove(origins, i);
    PricedForRemove(pending, origins, pricer, i);
    MatchedRemove(pending, held, i, k);
  }

  lemma SettleKeepsPending(s: Ledger, pricer: Pricer, step: Step, i: nat)
    requires PendingHolds(s, pricer) && step.SettleStep? && Legal(s, step)
    requires i == FirstOfCost(s.meter.pending, s.held[step.k].cost) < |s.meter.pending| && s.meter.pending[i] == s.held[step.k]
    ensures PendingHolds(Apply(s, pricer, step), pricer)
  {
    ListedRemove(s.meter.pending, s.held, s.origins, s.meter.ragCallsUsed, pricer, i, step.k);
  }

  lemma StepKeepsPending(s: Ledger, pricer: Pricer, step: Step, widest: Policy)
    requires LedgerInv(s) && WithinTokens(s.meter) && PendingHolds(s, pricer) && Legal(s, step)
    requires Separates(pricer, widest) && Widens(s.meter.policy, widest) && WithinEstimate(s, step) && UpgradesWithin(step, widest)
    ensures LedgerInv(Apply(s, pricer, step)) && WithinTokens(Apply(s, pricer, step).meter) && PendingHolds(Apply(s, pricer, step), pricer)
    ensures Widens(Apply(s, pricer, step).meter.policy, widest)
  {
    StepKeepsLedger(s, pricer, step);
    match step
    case ReserveStep(operation, estimate, now) => ReserveKeepsPending(s, pricer, step);
    case SettleStep(k, actualTokens, actualCost) =>
      SettleKeepsTokens(s, pricer, step, widest);
      ReleasesItsLike(s, pricer, widest, k);
      SettleKeepsPending(s, pricer, step, FirstOfCost(s.meter.pending, s.held[k].cost));
    case UpgradeStep(policy) =>
  }

  /**
   With a pricer that tells apart what can be pending together, and usage within
   the estimates, consumed plus reserved tokens never exceed the cap.
  */
  lemma {:induction false} RunStaysWithinTokens(s: Ledger, pricer: Pricer, steps: seq<Step>, widest: Policy)
    requires LedgerInv(s) && WithinTokens(s.meter) && PendingHolds(s, pricer)
    requires Separates(pricer, widest) && Widens(s.meter.policy, widest)
    requires LegalRun(s, pricer, steps) && ModestRun(s, pricer, steps, widest)
    ensures WithinTokens(Run(s, pricer, steps))
    decreases |steps|
  {
    if steps != [] {
      StepKeepsPending(s, pricer, steps[0], widest);
      RunStaysWithinTokens(Apply(s, pricer, steps[0]), pricer, steps[1..], widest);
    }
  }

  // ---------------------------------------------------------------- exactly when the cap holds

  predicate NoUpgrades(steps: seq<Step>) {
    forall i :: 0 <= i < |steps| ==> !steps[i].UpgradeStep?
  }

  /** No run under this policy, with usage within its estimates, exceeds the token cap. */
  ghost predicate NeverOverspends(policy: Policy, pricer: Pricer) {
    forall steps ::
      LegalRun(NewLedger(policy, None), pricer, steps) && NoUpgrades(steps) && ModestRun(NewLedger(policy, None), pricer, steps, policy)
      ==> WithinTokens(Run(NewLedger(policy, None), pricer, steps))
  }

  /** Everything that fits the token cap has a price, and any two such prices fit the cost cap. */
  ghost predicate Affords(policy: Policy, pricer: Pricer) {
    && policy.maxCost >= 0.0
    && (forall a, s: nat | s <= policy.maxTotalTokens :: Price(pricer, a, s).Some?)
    && (forall a, b, s: nat, t: nat {:trigger Price(pricer, a, s), Price(pricer, b, t)} | s <= policy.maxTotalTokens && t <= policy.maxTotalTokens ::
          Price(pricer, a, s).Some? && Price(pricer, b, t).Some? ==>
          Price(pricer, a, s).value + Price(pricer, b, t).value <= policy.maxCost)
  }

  lemma FirstThen(s: Ledger, pricer: Pricer, step: Step, rest: seq<Step>, policy: Policy)
    requires Legal(s, step) && WithinEstimate(s, step) && !step.UpgradeStep? && NoUpgrades(rest)
    requires LegalRun(Apply(s, pricer, step), pricer, rest) && ModestRun(Apply(s, pricer, step), pricer, rest, policy)
    ensures LegalRun(s, pricer, [step] + rest) && NoUpgrades([step] + rest) && ModestRun(s, pricer, [step] + rest, policy)
    ensures Run(s, pricer, [step] + rest) == Run(Apply(s, pricer, step), pricer, rest)
  {
    assert ([step] + rest)[1..] == rest;
  }

  /** What an overspending run still needs to know of the meter. */
  ghost predicate Holds(s: Ledger, policy: Policy, rags: nat, consumed: nat, reserved: nat, cost: real,
                        pending: seq<Reservation>, held: seq<Reservation>) {
    && s.meter.policy == policy && s.meter.deadline.None? && s.meter.ragCallsUsed == rags
    && s.meter.tokensConsumed == consumed && s.meter.tokensReserved == reserved && s.meter.costReserved == cost
    && s.meter.pending == pending && s.held == held
  }

  lemma ReserveAdds(s: Ledger, pricer: Pricer, policy: Policy, rags: nat, consumed: nat, reserved: nat, cost: real,
                    pending: seq<Reservation>, held: seq<Reservation>, operation: Operation, added: Reservation)
    requires Holds(s, policy, rags, consumed, reserved, cost, pending, held)
    requires rags + Rags(operation) <= policy.maxRagCalls && Price(pricer, operation, added.tokens) == Some(added.cost)
    requires consumed + reserved + added.tokens <= policy.maxTotalTokens && cost + added.cost <= policy.maxCost
    ensures Holds(Apply(s, pricer, ReserveStep(operation, added.tokens, 0)), policy, rags + Rags(operation), consumed,
                  reserved + added.tokens, cost + added.cost, pending + [added], held + [added])
  {}

  /** Owner `k` settles while the first listed reservation has its price. */
  lemma SettleFrees(s: Ledger, pricer: Pricer, policy: Policy, rags: nat, consumed: nat, reserved: nat, cost: real,
                    pending: seq<Reservation>, held: seq<Reservation>, k: nat)
    requires Holds(s, policy, rags, consumed, reserved, cost, pending, held)
    requires k < |held| && pending != [] && pending[0].cost == held[k].cost && pending[0].tokens <= reserved
    requires 0.0 <= held[k].cost <= cost
    ensures Holds(Apply(s, pricer, SettleStep(k, held[k].tokens, 0.0)), policy, rags, consumed + held[k].tokens,
                  reserved - pending[0].tokens, cost - held[k].cost, pending[1..], held[..k] + held[k + 1..])
  {
    assert pending[..0] + pending[1..] == pending[1..];
  }

  /**
   Two reservations of one price and different size can be mixed up: settling the
   small one releases the large one, and the freed room is handed out again before
   the large one is spent.
  */
  lemma EqualPricesOverspend(s0: Ledger, policy: Policy, pricer: Pricer, a: Operation, large: nat, b: Operation, small: nat) returns (steps: seq<Step>)
    requires Holds(s0, policy, 0, 0, 0, 0.0, [], [])
    requires Affords(policy, pricer) && small < large && CanPendTogether(policy, a, large, b, small)
    requires Price(pricer, a, large) == Price(pricer, b, small)
    ensures LegalRun(s0, pricer, steps) && NoUpgrades(steps) && ModestRun(s0, pricer, steps, policy)
    ensures !WithinTokens(Run(s0, pricer, steps))
  {
    var x, y := Reservation(Price(pricer, a, large).value, large), Reservation(Price(pricer, b, small).value, small);
    ReserveAdds(s0, pricer, policy, 0, 0, 0, 0.0, [], [], a, x);
    var s1 := Apply(s0, pricer, ReserveStep(a, large, 0));
    ReserveAdds(s1, pricer, policy, Rags(a), 0, large, 0.0 + x.cost, [] + [x], [] + [x], b, y);
    var s2 := Apply(s1, pricer, ReserveStep(b, small, 0));
    assert [] + [x] + [y] == [x, y];
    steps := MixUp(s2, policy, pricer, Rags(a) + Rags(b), x, y);
    FirstThen(s1, pricer, ReserveStep(b, small, 0), steps, policy);
    steps := [ReserveStep(b, small, 0)] + steps;
    FirstThen(s0, pricer, ReserveStep(a, large, 0), steps, policy);
    steps := [ReserveStep(a, large, 0)] + steps;
  }

  /** The last step of that run: the large reservation is spent although its room was handed out again. */
  lemma LateSettle(s: Ledger, policy: Policy, pricer: Pricer, rags: nat, x: Reservation, y: Reservation, z: Reservation) returns (steps: seq<Step>)
    requires Holds(s, policy, rags, y.tokens, y.tokens + z.tokens, x.cost + z.cost, [y, z], [x, z])
    requires x.cost == y.cost && y.tokens < x.tokens && 0.0 <= x.cost && 0.0 <= z.cost && 2 * y.tokens + z.tokens == policy.maxTotalTokens
    ensures LegalRun(s, pricer, steps) && NoUpgrades(steps) && ModestRun(s, pricer, steps, policy)
    ensures !WithinTokens(Run(s, pricer, steps))
  {
    SettleFrees(s, pricer, policy, rags, y.tokens, y.tokens + z.tokens, x.cost + z.cost, [y, z], [x, z], 0);
    FirstThen(s, pricer, SettleStep(0, x.tokens, 0.0), [], policy);
    steps := [SettleStep(0, x.tokens, 0.0)] + [];
  }

  /** The second half of that run, from the moment both reservations are out. */
  lemma MixUp(s2: Ledger, policy: Policy, pricer: Pricer, rags: nat, x: Reservation, y: Reservation) returns (steps: seq<Step>)
    requires Holds(s2, policy, rags, 0, x.tokens + y.tokens, x.cost + y.cost, [x, y], [x, y]) && rags <= policy.maxRagCalls
    requires x.cost == y.cost && y.tokens < x.tokens && 0.0 <= x.cost && x.tokens + y.tokens <= policy.maxTotalTokens
    requires Affords(policy, pricer) && exists b :: Price(pricer, b, y.tokens) == Some(y.cost)
    ensures LegalRun(s2, pricer, steps) && NoUpgrades(steps) && ModestRun(s2, pricer, steps, policy)
    ensures !WithinTokens(Run(s2, pricer, steps))
  {
    var rest: nat := policy.maxTotalTokens - 2 * y.tokens;
    var z := Reservation(Price(pricer, NonRag, rest).value, rest);
    SettleFrees(s2, pricer, policy, rags, 0, x.tokens + y.tokens, x.cost + y.cost, [x, y], [x, y], 1);
    var s3 := Apply(s2, pricer, SettleStep(1, y.tokens, 0.0));
    assert [x, y][1..] == [y] && [x, y][..1] + [x, y][2..] == [x];
    ReserveAdds(s3, pricer, policy, rags, y.tokens, y.tokens, x.cost, [y], [x], NonRag, z);
    var s4 := Apply(s3, pricer, ReserveStep(NonRag, rest, 0));
    assert [y] + [z] == [y, z] && [x] + [z] == [x, z];
    steps := LateSettle(s4, policy, pricer, rags, x, y, z);
    FirstThen(s3, pricer, ReserveStep(NonRag, rest, 0), steps, policy);
    steps := [ReserveStep(NonRag, rest, 0)] + steps;
    FirstThen(s2, pricer, SettleStep(1, y.tokens, 0.0), steps, policy);
    steps := [SettleStep(1, y.tokens, 0.0)] + steps;
  }

  /**
   Where everything that fits the token cap can be afforded, the cap holds in every
   run of usage within the estimates if and only if no two reservations that can be
   pending together share a price and differ in size.
  */
  lemma NeverOverspendsIffSeparates(policy: Policy, pricer: Pricer)
    requires Affords(policy, pricer)
    ensures NeverOverspends(policy, pricer) <==> Separates(pricer, policy)
  {
    if Separates(pricer, policy) {
      NewLedgerHolds(policy, None, pricer);
      forall steps | LegalRun(NewLedger(policy, None), pricer, steps) && ModestRun(NewLedger(policy, None), pricer, steps, policy)
        ensures WithinTokens(Run(NewLedger(policy, None), pricer, steps))
      {
        RunStaysWithinTokens(NewLedger(policy, None), pricer, steps, policy);
      }
    } else {
      var steps := UnseparatedOverspends(NewLedger(policy, None), policy, pricer);
    }
  }

  /** Any fresh meter under a policy that the pricer does not separate can be made to overspend. */
  lemma UnseparatedOverspends(s0: Ledger, policy: Policy, pricer: Pricer) returns (steps: seq<Step>)
    requires Holds(s0, policy, 0, 0, 0, 0.0, [], []) && Affords(policy, pricer) && !Separates(pricer, policy)
    ensures LegalRun(s0, pricer, steps) && NoUpgrades(steps) && ModestRun(s0, pricer, steps, policy)
    ensures !WithinTokens(Run(s0, pricer, steps))
  {
    var a, b, s: nat, t: nat :| CanPendTogether(policy, a, s, b, t) && Price(pricer, a, s).Some? && Price(pricer, a, s) == Price(pricer, b, t) && s != t;
    if s > t {
      steps := EqualPricesOverspend(s0, policy, pricer, a, s, b, t);
    } else {
      steps := EqualPricesOverspend(s0, policy, pricer, b, t, a, s);
    }
  }

  /** No run that may upgrade within `widest` exceeds the token cap. */
  ghost predicate NeverOverspendsUpTo(policy: Policy, widest: Policy, pricer: Pricer) {
    forall steps ::
      LegalRun(NewLedger(policy, None), pricer, steps) && ModestRun(NewLedger(policy, None), pricer, steps, widest)
      ==> WithinTokens(Run(NewLedger(policy, None), pricer, steps))
  }

  /** With the upgrade of one level in reach, what counts is what can be pending together after it. */
  lemma UpgradeNeverOverspendsIffSeparates(policy: Policy, widest: Policy, pricer: Pricer)
    requires policy.maxCost >= 0.0 && Affords(widest, pricer) && Widens(policy, widest)
    requires Upgrade(NewMeter(policy, None), widest).policy == widest
    ensures NeverOverspendsUpTo(policy, widest, pricer) <==> Separates(pricer, widest)
  {
    var s := NewLedger(policy, None);
    if Separates(pricer, widest) {
      NewLedgerHolds(policy, None, pricer);
      forall steps | LegalRun(s, pricer, steps) && ModestRun(s, pricer, steps, widest)
        ensures WithinTokens(Run(s, pricer, steps))
      {
        RunStaysWithinTokens(s, pricer, steps, widest);
      }
    } else {
      var steps := UnseparatedOverspends(Apply(s, pricer, UpgradeStep(widest)), widest, pricer);
      var all := [UpgradeStep(widest)] + steps;
      assert all[1..] == steps;
      assert LegalRun(s, pricer, all) && ModestRun(s, pricer, all, widest);
      assert !WithinTokens(Run(s, pricer, all));
    }
  }

  // ---------------------------------------------------------------- choosing candidate documents

  /** A hit of the ranked list; an empty document id is a missing identity. */
  datatype Hit = Hit(document: string, chunk: string)

  /** The best-ranked hit of its document. */
  predicate IsFirst(ranked: seq<Hit>, k: nat)
    requires k < |ranked|
  {
    ranked[k].document != "" && forall j :: 0 <= j < k ==> ranked[j].document != ranked[k].document
  }

  /** How many documents the first `n` hits belong to. */
  function Documents(ranked: seq<Hit>, n: nat): nat
    requires n <= |ranked|
  {
    if n == 0 then 0 else Documents(ranked, n - 1) + if IsFirst(ranked, n - 1) then 1 else 0
  }

  /** The best hit of one of the first `limit` documents. */
  predicate Chosen(ranked: seq<Hit>, limit: nat, k: nat) {
    k < |ranked| && IsFirst(ranked, k) && Documents(ranked, k) < limit
  }

  predicate Seen(ranked: seq<Hit>, n: nat, document: string)
    requires n <= |ranked|
  {
    exists i :: 0 <= i < n && ranked[i].document == document
  }

  lemma SeenGrows(ranked: seq<Hit>, n: nat, document: string)
    requires n < |ranked|
    ensures Seen(ranked, n + 1, document) <==> Seen(ranked, n, document) || ranked[n].document == document
    ensures IsFirst(ranked, n) <==> ranked[n].document != "" && !Seen(ranked, n, ranked[n].document)
  {
    if ranked[n].document == document { assert Seen(ranked, n + 1, document); }
    if Seen(ranked, n, document) {
      var i :| 0 <= i < n && ranked[i].document == document;
      assert Seen(ranked, n + 1, document);
    }
  }

  /** `select_budget_candidates` on the ranked hits: the places of the best hit of each of the first `limit` documents. */
  method SelectCandidates(ranked: seq<Hit>, limit: nat) returns (places: seq<nat>, missing: bool)
    requires limit > 0
    ensures forall i, j :: 0 <= i < j < |places| ==> places[i] < places[j]
    ensures forall k: nat :: k in places <==> Chosen(ranked, limit, k)
    ensures |places| == if Documents(ranked, |ranked|) < limit then Documents(ranked, |ranked|) else limit
    ensures missing <==> Seen(ranked, |ranked|, "")
  {
    places, missing := [], false;
    var documents: set<string> := {};
    for k := 0 to |ranked|
      invariant forall i, j :: 0 <= i < j < |places| ==> places[i] < places[j]
      invariant forall i :: 0 <= i < |places| ==> Chosen(ranked, limit, places[i]) && places[i] < k
      invariant forall i: nat | i < k :: Chosen(ranked, limit, i) ==> i in places
      invariant if |places| < limit then Documents(ranked, k) == |places| else |places| == limit <= Documents(ranked, k)
      invariant |places| < limit ==> forall d :: d in documents <==> d != "" && Seen(ranked, k, d)
      invariant missing <==> Seen(ranked, k, "")
    {
      forall d ensures Seen(ranked, k + 1, d) <==> Seen(ranked, k, d) || ranked[k].document == d {
        SeenGrows(ranked, k, d);
      }
      SeenGrows(ranked, k, "");
      if ranked[k].document == "" {
        missing := true;
      } else if ranked[k].document !in documents && |places| != limit {
        places := places + [k];
        documents := documents + {ranked[k].document};
      }
    }
  }

  // ---------------------------------------------------------------- the meter as the source updates it

  class BudgetMeter {
    var policy: Policy
    var ragCallsUsed: nat
    var tokensUsed: nat
    var tokensConsumed: nat
    var tokensReserved: nat
    var costReserved: real
    var costSpent: real
    var deadline: Option<int>
    var upgradedOnce: bool
    var pending: seq<Reservation>
    ghost var estimates: nat
    ghost var actuals: nat

    ghost function View(): Meter
      reads this
    {
      Meter(policy, ragCallsUsed, tokensUsed, tokensConsumed, tokensReserved, costReserved, costSpent,
            deadline, upgradedOnce, pending, estimates, actuals)
    }

    constructor (policy: Policy, deadline: Option<int>)
      ensures View() == NewMeter(policy, deadline)
    {
      this.policy, this.deadline := policy, deadline;
      ragCallsUsed, tokensUsed, tokensConsumed, tokensReserved := 0, 0, 0, 0;
      costReserved, costSpent, upgradedOnce, pending := 0.0, 0.0, false, [];
      estimates, actuals := 0, 0;
    }

    method CheckGate(pricer: Pricer, operation: Operation, estimate: int, now: int) returns (notice: Option<Reason>)
      ensures notice == Gate(View(), pricer, operation, estimate, now)
    {
      if !operation.NonRag? && ragCallsUsed >= policy.maxRagCalls {
        return Some(BudgetExhausted);
      }
      if deadline.Some? && now >= deadline.value {
        return Some(BudgetExhausted);
      }
      if tokensConsumed + tokensReserved + Max0(estimate) > policy.maxTotalTokens {
        return Some(BudgetExhausted);
      }
      var price := Price(pricer, operation, estimate);
      if price.None? {
        return Some(CostUnavailable);
      }
      if costReserved + price.value > policy.maxCost {
        return Some(BudgetExhausted);
      }
      return None;
    }

    method TryReserve(pricer: Pricer, operation: Operation, estimate: int, now: int) returns (cost: Option<real>)
      modifies this
      ensures View() == Reserve(old(View()), pricer, operation, estimate, now)
      ensures cost == if Gate(old(View()), pricer, operation, estimate, now).Some? then None else Price(pricer, operation, estimate)
    {
      var notice := CheckGate(pricer, operation, estimate, now);
      if notice.Some? {
        return None;
      }
      if !operation.NonRag? {
        ragCallsUsed := ragCallsUsed + 1;
      }
      var tokens := Max0(estimate);
      tokensUsed := tokensUsed + tokens;
      tokensReserved := tokensReserved + tokens;
      cost := Price(pricer, operation, estimate);
      costReserved := costReserved + cost.value;
      pending := pending + [Reservation(cost.value, tokens)];
      estimates := estimates + tokens;
    }

    /** The scan of `reconcile`: the first pending entry of this cost goes, with its tokens. */
    method ReleaseFirst(cost: real)
      modifies this`tokensReserved, this`pending
      ensures pending == WithoutFirst(old(pending), cost)
      ensures tokensReserved == Max0(old(tokensReserved) - FirstTokens(old(pending), cost))
    {
      var i := 0;
      while i < |pending| && pending[i].cost != cost
        invariant 0 <= i <= |pending|
        invariant forall k :: 0 <= k < i ==> pending[k].cost != cost
      {
        i := i + 1;
      }
      if i < |pending| {
        tokensReserved := Max0(tokensReserved - pending[i].tokens);
        pending := pending[..i] + pending[i + 1..];
      }
    }

    method Settle(cost: real, actualTokens: int, actualCost: real)
      modifies this
      ensures View() == Reconcile(old(View()), cost, actualTokens, actualCost)
    {
      var actual := Max0(actualTokens);
      ReleaseFirst(cost);
      tokensUsed, tokensConsumed, actuals := tokensUsed + actual, tokensConsumed + actual, actuals + actual;
      costReserved := if costReserved - cost > 0.0 then costReserved - cost else 0.0;
      costSpent := if actualCost > 0.0 then costSpent + actualCost else costSpent;
    }

    method UpgradePolicy(policy: Policy) returns (upgraded: bool)
      modifies this
      ensures View() == Upgrade(old(View()), policy)
      ensures upgraded <==> !old(upgradedOnce) && upgradedOnce
    {
      if upgradedOnce || policy.effort == this.policy.effort {
        return false;
      }
      var next := if this.policy.effort == Quick then Some(Think) else if this.policy.effort == Think then Some(Deep) else None;
      if next != Some(policy.effort) {
        return false;
      }
      this.policy := policy;
      upgradedOnce := true;
      return true;
    }

    /** Any calls of the meter by owners that settle what they were given: the books balance and the caps hold throughout. */
    method PerformAll(pricer: Pricer, steps: seq<Step>) returns (held: seq<Reservation>)
      requires LedgerInv(Ledger(View(), [], [])) && LegalRun(Ledger(View(), [], []), pricer, steps)
      modifies this
      ensures View() == Run(Ledger(old(View()), [], []), pricer, steps)
      ensures Conserved(View()) && WithinCaps(View())
    {
      RunConserves(Ledger(View(), [], []), pricer, steps);
      ghost var origins: seq<Operation> := [];
      held := [];
      var i := 0;
      while i < |steps|
        invariant 0 <= i <= |steps|
        invariant LegalRun(Ledger(View(), held, origins), pricer, steps[i..])
        invariant Run(Ledger(View(), held, origins), pricer, steps[i..]) == Run(Ledger(old(View()), [], []), pricer, steps)
      {
        assert steps[i..][1..] == steps[i + 1..];
        ghost var next := Apply(Ledger(View(), held, origins), pricer, steps[i]);
        held := Perform(pricer, steps[i], held, origins);
        origins := next.origins;
        i := i + 1;
      }
    }

    method Perform(pricer: Pricer, step: Step, held: seq<Reservation>, ghost origins: seq<Operation>) returns (left: seq<Reservation>)
      requires Legal(Ledger(View(), held, origins), step)
      modifies this
      ensures View() == Apply(Ledger(old(View()), held, origins), pricer, step).meter
      ensures left == Apply(Ledger(old(View()), held, origins), pricer, step).held
    {
      match step
      case ReserveStep(operation, estimate, now) =>
        var cost := TryReserve(pricer, operation, estimate, now);
        left := if cost.Some? then held + [Reservation(cost.value, Max0(estimate))] else held;
      case SettleStep(k, actualTokens, actualCost) =>
        Settle(held[k].cost, actualTokens, actualCost);
        left := held[..k] + held[k + 1..];
      case UpgradeStep(policy) =>
        var upgraded := UpgradePolicy(policy);
        left := held;
    }
  }

}

/**
 Ownership of retrieval requests (app/chat/ports.py:371-568): a search opens a
 request; the active one and those behind retained citations stay open until the
 final revalidation or a close.

 Requests are numbered as they are issued. What the index answers is an input.
*/
module RetrievalPort {
  import opened Options

  /** A call on a request, made when `after` requests had been released. */
  datatype Touch = Touch(request: nat, after: nat)

  /** `issued`, `released` and `touched` are what the indexing service has seen. */
  datatype State = State(
    active: Option<nat>, searched: bool, citations: map<string, nat>, retained: seq<nat>,
    issued: nat, released: seq<nat>, touched: seq<Touch>)

  datatype SearchResult = Hits | NoHits | SearchRaised

  /** What resolving one hit meets: the hit was not in the last search, the citation is not available, it is, or the call raises. */
  datatype Resolution = UnknownHit | NotAvailable | Available(key: string) | ResolveRaised

  const START: State := State(None, false, map[], [], 0, [], [])

  function TouchRequest(s: State, request: nat): State {
    s.(touched := s.touched + [Touch(request, |s.released|)])
  }

  /** The active request goes back unless a citation retains it. */
  function DropActive(s: State): State {
    s.(active := None, searched := false,
       released := if s.active.Some? && s.active.value !in s.retained then s.released + [s.active.value] else s.released)
  }

  function Search(s: State, result: SearchResult): State {
    var d := DropActive(s);
    var request := d.issued;
    var t := TouchRequest(d.(issued := request + 1), request);
    match result
    case SearchRaised => t.(released := t.released + [request])
    case NoHits => t.(released := t.released + [request], searched := true)
    case Hits => t.(active := Some(request), searched := true)
  }

  function Retain(s: State, request: nat, key: string): State {
    s.(citations := s.citations[key := request], retained := if request in s.retained then s.retained else s.retained + [request])
  }

  /** One hit after another, until one raises. */
  function ResolveAll(s: State, request: nat, hits: seq<Resolution>): State
    decreases |hits|
  {
    if hits == [] then s
    else
      match hits[0]
      case UnknownHit => ResolveAll(s, request, hits[1..])
      case NotAvailable => ResolveAll(TouchRequest(s, request), request, hits[1..])
      case Available(key) => ResolveAll(Retain(TouchRequest(s, request), request, key), request, hits[1..])
      case ResolveRaised => TouchRequest(s, request)
  }

  /** Without an active request the call is refused. */
  function Resolve(s: State, hits: seq<Resolution>): State {
    if s.active.None? || !s.searched then s else ResolveAll(s, s.active.value, hits)
  }

  /** Every retained citation is checked on the request it came from; the `raises`-th check may raise. */
  function CheckAll(s: State, keys: seq<string>, raises: int): State
    decreases |keys|
  {
    if keys == [] then s
    else if keys[0] !in s.citations then CheckAll(s, keys[1..], raises)
    else if raises == 0 then TouchRequest(s, s.citations[keys[0]])
    else CheckAll(TouchRequest(s, s.citations[keys[0]]), keys[1..], raises - 1)
  }

  function Close(s: State): State {
    State(None, false, map[], [], s.issued,
          s.released + s.retained + if s.active.Some? && s.active.value !in s.retained then [s.active.value] else [], s.touched)
  }

  /** Whatever happens during the checks, everything is closed afterwards. */
  function Revalidate(s: State, keys: seq<string>, raises: int): State {
    Close(CheckAll(s, keys, raises))
  }

  datatype Step =
    | SearchStep(result: SearchResult)
    | ResolveStep(hits: seq<Resolution>)
    | RevalidateStep(keys: seq<string>, raises: int)
    | CloseStep

  function Apply(s: State, step: Step): State {
    match step
    case SearchStep(result) => Search(s, result)
    case ResolveStep(hits) => Resolve(s, hits)
    case RevalidateStep(keys, raises) => Revalidate(s, keys, raises)
    case CloseStep => Close(s)
  }

  function Run(s: State, steps: seq<Step>): State
    decreases |steps|
  {
    if steps == [] then s else Run(Apply(s, steps[0]), steps[1..])
  }

  // ---------------------------------------------------------------- the invariant

  /** Opened and not released. */
  predicate IsOpen(s: State, request: nat) {
    request < s.issued && request !in s.released
  }

  predicate Distinct(s: seq<nat>) {
    forall i, j :: 0 <= i < j < |s| ==> s[i] != s[j]
  }

  /** What the port owns: the retained requests and the active one. */
  predicate Owned(s: State, request: nat) {
    request in s.retained || s.active == Some(request)
  }

  predicate OwnershipHolds(s: State) {
    && (forall request: nat | request < s.issued :: request !in s.released <==> Owned(s, request))
    && (s.active.Some? ==> s.active.value < s.issued) && (forall i :: 0 <= i < |s.retained| ==> s.retained[i] < s.issued)
    && (forall i :: 0 <= i < |s.released| ==> s.released[i] < s.issued)
    && Distinct(s.released) && Distinct(s.retained)
    && (forall key | key in s.citations :: s.citations[key] in s.retained)
  }

  /** A request was called only before its release. */
  predicate TouchesHold(s: State) {
    forall i :: 0 <= i < |s.touched| ==>
      s.touched[i].after <= |s.released| && s.touched[i].request < s.issued && s.touched[i].request !in s.released[..s.touched[i].after]
  }

  predicate Inv(s: State) {
    OwnershipHolds(s) && TouchesHold(s)
  }

  lemma TouchKeeps(s: State, request: nat)
    requires Inv(s) && Owned(s, request)
    ensures Inv(TouchRequest(s, request))
  {
    assert s.released[..|s.released|] == s.released;
  }

  lemma DropKeeps(s: State)
    requires Inv(s)
    ensures Inv(DropActive(s))
  {
    if s.active.Some? { assert Owned(s, s.active.value) && s.active.value !in s.released; }
  }

  lemma SearchKeeps(s: State, result: SearchResult)
    requires Inv(s)
    ensures Inv(Search(s, result))
  {
    var d := DropActive(s);
    DropKeeps(s);
    var o := d.(issued := d.issued + 1, active := Some(d.issued));
    assert OwnershipHolds(o) by {
      assert d.issued !in d.released;
    }
    TouchKeeps(o, d.issued);
    var t := TouchRequest(o, d.issued);
  }

  lemma {:induction false} ResolveAllKeeps(s: State, request: nat, hits: seq<Resolution>)
    requires Inv(s) && Owned(s, request)
    ensures Inv(ResolveAll(s, request, hits))
    decreases |hits|
  {
    if hits != [] {
      if hits[0].UnknownHit? {
        ResolveAllKeeps(s, request, hits[1..]);
      } else {
        TouchKeeps(s, request);
        var t := TouchRequest(s, request);
        if hits[0].NotAvailable? { ResolveAllKeeps(t, request, hits[1..]); }
        if hits[0].Available? {
          ResolveAllKeeps(Retain(t, request, hits[0].key), request, hits[1..]);
        }
      }
    }
  }

  lemma {:induction false} CheckAllKeeps(s: State, keys: seq<string>, raises: int)
    requires Inv(s)
    ensures Inv(CheckAll(s, keys, raises))
    decreases |keys|
  {
    if keys != [] {
      if keys[0] in s.citations {
        TouchKeeps(s, s.citations[keys[0]]);
        if raises != 0 { CheckAllKeeps(TouchRequest(s, s.citations[keys[0]]), keys[1..], raises - 1); }
      } else {
        CheckAllKeeps(s, keys[1..], raises);
      }
    }
  }

  lemma CloseKeeps(s: State)
    requires Inv(s)
    ensures Inv(Close(s)) && forall request: nat :: !IsOpen(Close(s), request)
  {
    CloseReleasesAll(s);
  }

  lemma CloseReleasesAll(s: State)
    requires OwnershipHolds(s)
    ensures OwnershipHolds(Close(s)) && forall request: nat :: !IsOpen(Close(s), request)
  {
    var t := Close(s);
    forall request: nat | request < s.issued ensures request in t.released {
      assert request in s.released || Owned(s, request);
    }
    forall i, j | 0 <= i < |s.released| <= j < |t.released| ensures t.released[i] != t.released[j] {
      assert s.released[i] in s.released;
      assert Owned(s, t.released[j]);
    }
  }

  lemma StepKeeps(s: State, step: Step)
    requires Inv(s)
    ensures Inv(Apply(s, step))
  {
    match step
    case SearchStep(result) => SearchKeeps(s, result);
    case ResolveStep(hits) => if s.active.Some? { ResolveAllKeeps(s, s.active.value, hits); }
    case RevalidateStep(keys, raises) =>
      CheckAllKeeps(s, keys, raises);
      CloseKeeps(CheckAll(s, keys, raises));
    case CloseStep => CloseKeeps(s);
  }

  lemma {:induction false} RunKeeps(s: State, steps: seq<Step>)
    requires Inv(s)
    ensures Inv(Run(s, steps))
    decreases |steps|
  {
    if steps != [] {
      StepKeeps(s, steps[0]);
      RunKeeps(Apply(s, steps[0]), steps[1..]);
    }
  }

  // ---------------------------------------------------------------- main results

  /** In every run the open requests are exactly the retained ones and the active one. */
  lemma OpenIffOwned(steps: seq<Step>, request: nat)
    ensures IsOpen(Run(START, steps), request) <==> Owned(Run(START, steps), request)
  {
    RunKeeps(START, steps);
  }

  /** No request is released twice. */
  lemma ReleasedAtMostOnce(steps: seq<Step>)
    ensures Distinct(Run(START, steps).released)
  {
    RunKeeps(START, steps);
  }

  /** No call of a search, resolution or revalidation ever goes to a released request. */
  lemma CallsOnlyOpenRequests(steps: seq<Step>, i: nat)
    requires i < |Run(START, steps).touched|
    ensures Run(START, steps).touched[i].after <= |Run(START, steps).released|
    ensures Run(START, steps).touched[i].request !in Run(START, steps).released[..Run(START, steps).touched[i].after]
  {
    RunKeeps(START, steps);
  }

  /** After a close, and after a revalidation however it ends, nothing is left open. */
  lemma NothingLeftOpen(steps: seq<Step>, keys: seq<string>, raises: int, request: nat)
    ensures !IsOpen(Close(Run(START, steps)), request)
    ensures !IsOpen(Revalidate(Run(START, steps), keys, raises), request)
  {
    RunKeeps(START, steps);
    CloseKeeps(Run(START, steps));
    CheckAllKeeps(Run(START, steps), keys, raises);
    CloseKeeps(CheckAll(Run(START, steps), keys, raises));
  }

  // ---------------------------------------------------------------- the port as it changes its fields

  class IndexingChatRetrievalPort {
    var active: Option<nat>
    var searched: bool
    var citations: map<string, nat>
    var retained: seq<nat>
    ghost var issued: nat
    ghost var released: seq<nat>
    ghost var touched: seq<Touch>

    ghost function View(): State
      reads this
    {
      State(active, searched, citations, retained, issued, released, touched)
    }

    constructor ()
      ensures View() == START
    {
      active, searched, citations, retained := None, false, map[], [];
      issued, released, touched := 0, [], [];
    }

    method OpenRequest() returns (ghost request: nat)
      modifies this`issued, this`touched
      ensures request == old(issued) && issued == request + 1
      ensures touched == old(touched) + [Touch(request, |released|)]
    {
      request, issued := issued, issued + 1;
      touched := touched + [Touch(request, |released|)];
    }

    method ReleaseRequest(request: nat)
      modifies this`released
      ensures released == old(released) + [request]
    {
      released := released + [request];
    }

    /** `request` is the handle the indexing service returns. */
    method RunSearch(request: nat, result: SearchResult)
      requires request == issued
      modifies this
      ensures View() == Apply(old(View()), SearchStep(result))
    {
      if active.Some? && active.value !in retained {
        ReleaseRequest(active.value);
      }
      active, searched := None, false;
      ghost var handle := OpenRequest();
      if result.SearchRaised? {
        ReleaseRequest(request);
        return;
      }
      searched := true;
      if result.NoHits? {
        ReleaseRequest(request);
      } else {
        active := Some(request);
      }
    }

    method ResolveCitations(hits: seq<Resolution>) returns (resolved: seq<string>)
      modifies this
      ensures View() == Apply(old(View()), ResolveStep(hits))
    {
      resolved := [];
      if active.None? || !searched {
        return;
      }
      ghost var end := ResolveAll(View(), active.value, hits);
      for i := 0 to |hits|
        invariant active == old(active) && searched == old(searched)
        invariant end == ResolveAll(View(), active.value, hits[i..])
      {
        assert hits[i..][1..] == hits[i + 1..];
        if !hits[i].UnknownHit? {
          touched := touched + [Touch(active.value, |released|)];
          if hits[i].ResolveRaised? {
            return;
          }
          if hits[i].Available? {
            citations := citations[hits[i].key := active.value];
            retained := if active.value in retained then retained else retained + [active.value];
            resolved := resolved + [hits[i].key];
          }
        }
      }
    }

    method CloseAll()
      modifies this
      ensures View() == Apply(old(View()), CloseStep)
    {
      var requests := retained;
      if active.Some? && active.value !in requests {
        requests := requests + [active.value];
      }
      active, searched, citations, retained := None, false, map[], [];
      for i := 0 to |requests|
        invariant released == old(released) + requests[..i]
        invariant active == None && !searched && citations == map[] && retained == []
        invariant issued == old(issued) && touched == old(touched)
      {
        ReleaseRequest(requests[i]);
      }
      assert requests[..|requests|] == requests;
    }

    method RevalidateCitations(keys: seq<string>, raises: int) returns (checked: nat)
      modifies this
      ensures View() == Apply(old(View()), RevalidateStep(keys, raises))
    {
      ghost var end := CheckAll(View(), keys, raises);
      checked := 0;
      var i := 0;
      while i < |keys|
        invariant 0 <= i <= |keys|
        invariant end == CheckAll(View(), keys[i..], raises - checked)
      {
        assert keys[i..][1..] == keys[i + 1..];
        if keys[i] in citations {
          touched := touched + [Touch(citations[keys[i]], |released|)];
          if raises == checked {
            assert View() == end;
            CloseAll();
            return;
          }
          checked := checked + 1;
        }
        i := i + 1;
      }
      CloseAll();
    }
  }
}

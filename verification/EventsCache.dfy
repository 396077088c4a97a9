// `EventsCache`: request handlers in a multimap by sender, and the dispatch of a request,
// against a plain log of registrations.

module EventsCaches {

  // A handler with the check it makes of a request; a missing callback accepts nothing.
  datatype Event = Event(handler: nat, accepts: string -> bool)

  datatype Registration = Registration(identifier: nat, event: Event)

  // A multimap puts a new element behind all elements whose key is not larger.
  function Emplace(m: seq<Registration>, r: Registration): seq<Registration> {
    if m == [] || r.identifier < m[0].identifier then [r] + m else [m[0]] + Emplace(m[1..], r)
  }

  // The multimap after a history of registrations.
  function Built(log: seq<Registration>): seq<Registration> {
    if log == [] then [] else Emplace(Built(log[..|log| - 1]), log[|log| - 1])
  }

  ghost predicate Sorted(m: seq<Registration>) {
    m != [] ==> (forall r | r in m[1..] :: m[0].identifier <= r.identifier) && Sorted(m[1..])
  }

  // The reference: go through the registrations in the order they were made.
  function Dispatch(log: seq<Registration>, identifier: nat, request: string): seq<Event> {
    if log == [] then []
    else Dispatch(log[..|log| - 1], identifier, request) + Handles(log[|log| - 1], identifier, request)
  }

  function Handles(r: Registration, identifier: nat, request: string): seq<Event> {
    if r.identifier == identifier && r.event.accepts(request) then [r.event] else []
  }

  // The validating handlers among consecutive elements.
  function Validating(m: seq<Registration>, identifier: nat, request: string): seq<Event> {
    if m == [] then [] else Handles(m[0], identifier, request) + Validating(m[1..], identifier, request)
  }

  lemma {:induction false} EmplaceMembers(m: seq<Registration>, r: Registration)
    ensures forall x :: x in Emplace(m, r) <==> x == r || x in m
  {
    if m == [] || m[0].identifier > r.identifier {
    } else {
      EmplaceMembers(m[1..], r);
      assert m == [m[0]] + m[1..];
    }
  }

  lemma {:induction false} EmplaceSorted(m: seq<Registration>, r: Registration)
    requires Sorted(m)
    ensures Sorted(Emplace(m, r))
  {
    if m != [] && m[0].identifier <= r.identifier {
      EmplaceMembers(m[1..], r);
      EmplaceSorted(m[1..], r);
      assert Emplace(m, r)[1..] == Emplace(m[1..], r);
    } else {
      assert ([r] + m)[1..] == m;
      assert m != [] ==> m == [m[0]] + m[1..];
    }
  }

  lemma {:induction false} NoneValidating(m: seq<Registration>, identifier: nat, request: string)
    requires forall r | r in m :: r.identifier != identifier
    ensures Validating(m, identifier, request) == []
  {
    if m == [] {
    } else {
      assert m[0] in m && forall r | r in m[1..] :: r in m;
      NoneValidating(m[1..], identifier, request);
    }
  }

  // A new element comes behind those of its key that are there already.
  lemma {:induction false} EmplaceValidating(m: seq<Registration>, r: Registration, identifier: nat, request: string)
    requires Sorted(m)
    ensures Validating(Emplace(m, r), identifier, request)
      == Validating(m, identifier, request) + Handles(r, identifier, request)
  {
    if m != [] && m[0].identifier <= r.identifier {
      EmplaceValidating(m[1..], r, identifier, request);
      assert Emplace(m, r)[1..] == Emplace(m[1..], r);
    } else {
      assert ([r] + m)[1..] == m;
      if r.identifier == identifier {
        assert m != [] ==> forall x | x in m :: x == m[0] || x in m[1..];
        NoneValidating(m, identifier, request);
      }
    }
  }

  // For any history of registrations, the validating elements of the multimap are those of
  // the log, each once and in the order of registration.
  lemma {:induction false} BuiltDispatches(log: seq<Registration>, identifier: nat, request: string)
    ensures Sorted(Built(log))
    ensures Validating(Built(log), identifier, request) == Dispatch(log, identifier, request)
  {
    if log == [] {
    } else {
      var before := log[..|log| - 1];
      BuiltDispatches(before, identifier, request);
      EmplaceSorted(Built(before), log[|log| - 1]);
      EmplaceValidating(Built(before), log[|log| - 1], identifier, request);
    }
  }

  predicate For(r: Registration, identifier: nat, request: string) {
    r.identifier == identifier && r.event.accepts(request)
  }

  // What is run, in terms of the log: `at` are the positions of exactly the registrations under
  // the sender that accept the request, each once and in order.
  ghost predicate RunsExactly(log: seq<Registration>, identifier: nat, request: string, handled: seq<Event>,
                              at: seq<nat>) {
    && |at| == |handled|
    && (forall k | 0 <= k < |at| ::
          at[k] < |log| && handled[k] == log[at[k]].event && For(log[at[k]], identifier, request))
    && (forall j, k | 0 <= j < k < |at| :: at[j] < at[k])
    && (forall i: nat | i < |log| && For(log[i], identifier, request) :: i in at)
  }

  lemma {:induction false} DispatchRunsExactly(log: seq<Registration>, identifier: nat, request: string)
    returns (at: seq<nat>)
    ensures RunsExactly(log, identifier, request, Dispatch(log, identifier, request), at)
  {
    if log == [] {
      at := [];
    } else {
      var last: nat := |log| - 1;
      var before := DispatchRunsExactly(log[..last], identifier, request);
      var handled := Dispatch(log[..last], identifier, request);
      at := OneMoreRuns(log[..last], log[last], identifier, request, handled, before);
      assert log == log[..last] + [log[last]];
    }
  }

  lemma OneMoreRuns(log: seq<Registration>, r: Registration, identifier: nat, request: string, handled: seq<Event>,
                    before: seq<nat>) returns (at: seq<nat>)
    requires RunsExactly(log, identifier, request, handled, before)
    ensures RunsExactly(log + [r], identifier, request, handled + Handles(r, identifier, request), at)
  {
    if For(r, identifier, request) {
      at := before + [|log|];
      assert at[|before|] == |log|;
    } else {
      at := before;
      assert handled + [] == handled;
    }
    forall i: nat | i < |log + [r]| && For((log + [r])[i], identifier, request) ensures i in at {
      if i < |log| {
        assert i in before;
      }
    }
  }

  class EventsCache {
    var eventsCache: seq<Registration>
    ghost var log: seq<Registration>

    ghost predicate Valid()
      reads this
    {
      eventsCache == Built(log)
    }

    constructor ()
      ensures Valid() && log == []
    {
      eventsCache, log := [], [];
    }

    method AddEvent(identifier: nat, event: Event)
      requires Valid()
      modifies this
      ensures Valid() && log == old(log) + [Registration(identifier, event)]
    {
      var r := Registration(identifier, event);
      ghost var before := eventsCache;
      var i := 0;
      while i < |eventsCache| && eventsCache[i].identifier <= identifier
        invariant 0 <= i <= |eventsCache| && log == old(log)
        invariant eventsCache == before && Emplace(before, r) == before[..i] + Emplace(before[i..], r)
      {
        EmplaceLater(before, i, r);
        i := i + 1;
      }
      eventsCache := eventsCache[..i] + [r] + eventsCache[i..];
      EmplaceHere(before, i, r);
      BuiltSnoc(log, r);
      log := log + [r];
    }

    // The handlers that are run, in the order they are run.
    method RunRequestsHandlers(identifier: nat, request: string) returns (handled: seq<Event>)
      requires Valid()
      ensures handled == Dispatch(log, identifier, request)
      ensures exists at :: RunsExactly(log, identifier, request, handled, at)
    {
      handled := [];
      BuiltSorted(log);
      var it := LowerBound(identifier, request);
      ghost var rest := eventsCache[it..];
      while it < |eventsCache| && eventsCache[it].identifier == identifier
        invariant 0 <= it <= |eventsCache| && rest == eventsCache[it..] && AtOrAfter(rest, identifier)
        invariant Validating(eventsCache, identifier, request) == handled + Validating(rest, identifier, request)
      {
        NextAtOrAfter(rest, identifier);
        ValidatingStep(handled, rest, identifier, request);
        assert rest[0] == eventsCache[it];
        if eventsCache[it].event.accepts(request) {
          handled := handled + [eventsCache[it].event];
        } else {
          assert handled + [] == handled;
        }
        it, rest := it + 1, rest[1..];
      }
      BehindRange(rest, identifier, request);
      BuiltDispatches(log, identifier, request);
      ghost var at := DispatchRunsExactly(log, identifier, request);
    }

    // The first element of `equal_range`; nothing before it is for this sender.
    method LowerBound(identifier: nat, ghost request: string) returns (it: nat)
      requires Sorted(eventsCache)
      ensures it <= |eventsCache| && AtOrAfter(eventsCache[it..], identifier)
      ensures Validating(eventsCache, identifier, request) == Validating(eventsCache[it..], identifier, request)
    {
      it := 0;
      while it < |eventsCache| && eventsCache[it].identifier < identifier
        invariant 0 <= it <= |eventsCache| && Sorted(eventsCache[it..])
        invariant Validating(eventsCache, identifier, request) == Validating(eventsCache[it..], identifier, request)
      {
        assert eventsCache[it..][1..] == eventsCache[it + 1..];
        it := it + 1;
      }
    }
  }

  ghost predicate AtOrAfter(m: seq<Registration>, identifier: nat) {
    Sorted(m) && (m != [] ==> identifier <= m[0].identifier)
  }

  lemma BuiltSnoc(log: seq<Registration>, r: Registration)
    ensures Built(log + [r]) == Emplace(Built(log), r)
  {
    assert (log + [r])[..|log|] == log;
  }

  lemma EmplaceHere(m: seq<Registration>, i: nat, r: Registration)
    requires i <= |m| && (i < |m| ==> r.identifier < m[i].identifier)
    ensures m[..i] + Emplace(m[i..], r) == m[..i] + [r] + m[i..]
  {
    assert Emplace(m[i..], r) == [r] + m[i..];
  }

  lemma EmplaceLater(m: seq<Registration>, i: nat, r: Registration)
    requires i < |m| && m[i].identifier <= r.identifier
    ensures m[..i] + Emplace(m[i..], r) == m[..i + 1] + Emplace(m[i + 1..], r)
  {
    assert m[i..][1..] == m[i + 1..];
  }

  lemma BuiltSorted(log: seq<Registration>)
    ensures Sorted(Built(log))
  {
    BuiltDispatches(log, 0, "");
  }

  lemma ValidatingStep(handled: seq<Event>, rest: seq<Registration>, identifier: nat, request: string)
    requires rest != []
    ensures handled + Validating(rest, identifier, request)
      == (handled + Handles(rest[0], identifier, request)) + Validating(rest[1..], identifier, request)
  {
  }

  lemma NextAtOrAfter(m: seq<Registration>, identifier: nat)
    requires AtOrAfter(m, identifier) && m != []
    ensures AtOrAfter(m[1..], identifier)
  {
  }

  lemma BehindRange(m: seq<Registration>, identifier: nat, request: string)
    requires AtOrAfter(m, identifier) && (m != [] ==> m[0].identifier != identifier)
    ensures Validating(m, identifier, request) == []
  {
  }
}

/**
 The circuit breaker in front of upstream registries, and the event trace that decides
 its state.
 */
module Breaker {
  import opened Base

  const THRESHOLD: nat := 5
  const OPEN_FOR: Time := 300

  datatype Event = Fail(now: Time) | Success | Check(now: Time)

  type Trace = seq<Event>

  /** The two map entries of one registry. */
  datatype Entry = Entry(failures: Option<nat>, until: Option<Time>)

  function Apply(b: Entry, e: Event): Entry {
    match e
    case Success => Entry(None, None)
    case Check(now) => if b.until.Some? && now > b.until.value then Entry(None, None) else b
    case Fail(now) =>
      var n := (if b.failures.Some? then b.failures.value else 0) + 1;
      Entry(Some(n), if n >= THRESHOLD && b.until.None? then Some(now + OPEN_FOR) else b.until)
  }

  function Last(es: Trace): Event
    requires es != []
  {
    es[|es| - 1]
  }

  function Before(es: Trace): Trace
    requires es != []
  {
    es[..|es| - 1]
  }

  function Replay(es: Trace): Entry {
    if es == [] then Entry(None, None) else Apply(Replay(Before(es)), Last(es))
  }

  class CircuitBreaker {
    var failures: map<Key, nat>
    var openUntil: map<Key, Time>

    constructor ()
      ensures failures == map[] && openUntil == map[]
      ensures forall r :: At(r) == Replay([])
    {
      failures, openUntil := map[], map[];
    }

    function At(registry: Key): Entry
      reads this
    {
      Entry(if registry in failures then Some(failures[registry]) else None,
            if registry in openUntil then Some(openUntil[registry]) else None)
    }

    method IsOpen(registry: Key, now: Time) returns (open: bool)
      modifies this
      ensures forall r :: At(r) == if r == registry then Apply(old(At(r)), Check(now)) else old(At(r))
      ensures open <==> At(registry).until.Some?
    {
      if registry !in openUntil {
        return false;
      }
      if now > openUntil[registry] {
        openUntil := openUntil - {registry};
        failures := failures - {registry};
        return false;
      }
      return true;
    }

    method RecordSuccess(registry: Key) returns (wasOpen: bool)
      modifies this
      ensures forall r :: At(r) == if r == registry then Apply(old(At(r)), Success) else old(At(r))
      ensures wasOpen <==> old(At(registry)).until.Some?
    {
      wasOpen := registry in openUntil;
      failures := failures - {registry};
      openUntil := openUntil - {registry};
    }

    method RecordFailure(registry: Key, now: Time) returns (first: bool)
      modifies this
      ensures forall r :: At(r) == if r == registry then Apply(old(At(r)), Fail(now)) else old(At(r))
      ensures first <==> old(At(registry)).until.None? && At(registry).until.Some?
    {
      failures := failures[registry := (if registry in failures then failures[registry] else 0) + 1];
      if failures[registry] >= THRESHOLD {
        if registry !in openUntil {
          openUntil := openUntil[registry := now + OPEN_FOR];
          return true;
        }
      }
      return false;
    }
  }

  // ---- the state read off the trace ----------------------------------------

  function Fails(es: Trace): nat {
    if es == [] then 0 else Fails(Before(es)) + if Last(es).Fail? then 1 else 0
  }

  /** When the threshold was first reached. */
  function Tripped(es: Trace): Option<Time> {
    if es == [] then None
    else if Tripped(Before(es)).Some? then Tripped(Before(es))
    else if Last(es).Fail? && Fails(es) >= THRESHOLD then Some(Last(es).now)
    else None
  }

  /** Whether the last event clears: a success, or a check after the open window has passed. */
  predicate Clears(es: Trace)
    requires es != []
    decreases |es|, 0
  {
    match Last(es)
    case Success => true
    case Check(now) => var t := Tripped(Recent(Before(es))); t.Some? && now > t.value + OPEN_FOR
    case Fail(_) => false
  }

  /** How many events go up to and including the last clearing one. */
  function Start(es: Trace): (n: nat)
    ensures n <= |es|
    decreases |es|, 1
  {
    if es == [] then 0 else if Clears(es) then |es| else Start(Before(es))
  }

  /** The events since the last clearing. */
  function Recent(es: Trace): Trace
    decreases |es|, 2
  {
    es[Start(es)..]
  }

  function Expected(es: Trace): Entry {
    Entry(if Fails(Recent(es)) == 0 then None else Some(Fails(Recent(es))),
          if Tripped(Recent(es)).Some? then Some(Tripped(Recent(es)).value + OPEN_FOR) else None)
  }

  lemma RecentGrows(es: Trace)
    requires es != [] && !Clears(es)
    ensures Recent(es) != [] && Before(Recent(es)) == Recent(Before(es)) && Last(Recent(es)) == Last(es)
  {
  }

  lemma {:induction false} TrippedIffThreshold(es: Trace)
    ensures Tripped(es).Some? <==> Fails(es) >= THRESHOLD
  {
    if es != [] {
      TrippedIffThreshold(Before(es));
    }
  }

  /**
   After any events the two maps hold exactly this: the number of failures since the last
   clearing, and an end of the open window fixed by the fifth of them, later failures
   included in the count but not extending the window.
   */
  lemma {:induction false} ReplayIsExpected(es: Trace)
    ensures Replay(es) == Expected(es)
    ensures Replay(es).until.Some? <==> Fails(Recent(es)) >= THRESHOLD
  {
    TrippedIffThreshold(Recent(es));
    if es != [] {
      ReplayIsExpected(Before(es));
      if Clears(es) {
        assert Recent(es) == [];
      } else {
        RecentGrows(es);
      }
    }
  }

  // ---- openings ------------------------------------------------------------

  predicate Opens(es: Trace) {
    es != [] && Replay(Before(es)).until.None? && Replay(es).until.Some?
  }

  lemma {:induction false} StartMonotone(es: Trace, i: nat)
    requires i <= |es|
    ensures Start(es) <= i ==> Start(es) == Start(es[..i])
  {
    if i == |es| {
      assert es[..i] == es;
    } else {
      StartMonotone(Before(es), i);
      assert Before(es)[..i] == es[..i];
    }
  }

  lemma {:induction false} StaysTripped(es: Trace, i: nat)
    requires i <= |es| && Tripped(es[..i]).Some?
    ensures Tripped(es) == Tripped(es[..i])
  {
    if i == |es| {
      assert es[..i] == es;
    } else {
      assert Before(es)[..i] == es[..i];
      StaysTripped(Before(es), i);
    }
  }

  lemma {:induction false} StartClears(es: Trace)
    requires 0 < Start(es)
    ensures Clears(es[..Start(es)])
  {
    if Clears(es) {
      assert es[..|es|] == es;
    } else {
      StartClears(Before(es));
      assert es[..Start(es)] == Before(es)[..Start(es)];
    }
  }

  lemma RecentPrefix(es: Trace, i: nat)
    requires Start(es) <= i <= |es|
    ensures Recent(es[..i]) == Recent(es)[..i - Start(es)]
  {
    StartMonotone(es, i);
  }

  /** Without a clearing in between, an open circuit is still open. */
  lemma StillOpen(es: Trace, i: nat)
    requires Start(es) <= i <= |es| && Replay(es[..i]).until.Some?
    ensures Replay(es).until.Some?
  {
    ReplayIsExpected(es);
    ReplayIsExpected(es[..i]);
    RecentPrefix(es, i);
    StaysTripped(Recent(es), i - Start(es));
  }

  /** Between two openings lies a clearing event, with five failures after it. */
  lemma OpeningsAreSeparated(es: Trace, i: nat)
    requires 0 < i < |es| && Opens(es) && Opens(es[..i])
    ensures i < Start(es) < |es| && Clears(es[..Start(es)])
    ensures Fails(es[Start(es)..]) >= THRESHOLD
  {
    ReplayIsExpected(es);
    var b := Before(es);
    assert b[..i] == es[..i];
    if Start(b) <= i {
      StillOpen(b, i);
    }
    StartClears(es);
  }
}

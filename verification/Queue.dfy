/**
 The in-memory work queue: a slice under a mutex, with consumers that wait on a condition
 variable and can be cancelled. Each section under the mutex is one step; a consumer
 inside cond.Wait is parked until a signal or a broadcast wakes it.
 */
module Queue {
  import opened Base

  /** The operations that never wait. `accepted` and `popped` are the history of the queue. */
  class SimpleQueue<T> {
    var items: seq<T>
    ghost var accepted: seq<T>
    ghost var popped: seq<T>

    ghost predicate Valid()
      reads this
    {
      accepted == popped + items
    }

    constructor ()
      ensures Valid() && items == [] && accepted == []
    {
      items, accepted, popped := [], [], [];
    }

    method Push(item: T)
      requires Valid()
      modifies this
      ensures Valid() && items == old(items) + [item] && accepted == old(accepted) + [item] && popped == old(popped)
    {
      items := items + [item];
      accepted := accepted + [item];
    }

    method TryPush(item: T, maxSize: nat) returns (ok: bool)
      requires Valid()
      modifies this
      ensures Valid() && popped == old(popped)
      ensures ok <==> |old(items)| < maxSize
      ensures ok ==> items == old(items) + [item] && accepted == old(accepted) + [item]
      ensures !ok ==> items == old(items) && accepted == old(accepted)
      ensures |old(items)| <= maxSize ==> |items| <= maxSize
    {
      if |items| >= maxSize {
        return false;
      }
      items := items + [item];
      accepted := accepted + [item];
      return true;
    }

    method Pop() returns (item: Option<T>)
      requires Valid()
      modifies this
      ensures Valid() && accepted == old(accepted)
      ensures item.Some? <==> old(items) != []
      ensures item.Some? ==> [item.value] + items == old(items) && popped == old(popped) + [item.value]
      ensures item.None? ==> items == [] && popped == old(popped)
    {
      if |items| == 0 {
        return None;
      }
      item := Some(items[0]);
      popped := popped + [items[0]];
      items := items[1..];
    }

    method Drain() returns (all: seq<T>)
      requires Valid()
      modifies this
      ensures Valid() && accepted == old(accepted)
      ensures items == [] && all == old(items) && popped == old(popped) + all
    {
      all := items;
      popped := popped + items;
      items := [];
    }
  }

  // ---- consumers that wait -------------------------------------------------

  type Consumer = nat

  /**
   `watching` holds the consumers inside PopCtx that have a watcher goroutine; `leaving` holds the
   watchers whose consumer has returned. Such a watcher may still take ctx.Done and broadcast.
   */
  datatype State<T> = State(items: seq<T>, parked: set<Consumer>, woken: set<Consumer>, cancelled: set<Consumer>,
                            watching: set<Consumer>, leaving: multiset<Consumer>, accepted: seq<T>, popped: seq<T>)

  datatype Step<T> =
    | Push(item: T, signalled: Option<Consumer>)
    | TryPush(item: T, max: nat, signalled: Option<Consumer>)
    | Pop
    | Drain
    | Enter(w: Consumer)         // PopCtx up to its return or its first cond.Wait
    | Wake(w: Consumer)          // a woken consumer has the mutex again
    | Cancel(w: Consumer)
    | Broadcast(w: Consumer)     // its watcher saw the cancellation
    | LateBroadcast(w: Consumer) // the same, after the consumer has returned
    | Retire(w: Consumer)        // the watcher saw that the consumer has returned

  /** cond.Signal wakes one waiter if there is one. */
  predicate Signals<T>(s: State<T>, w: Option<Consumer>) {
    if w.Some? then w.value in s.parked else s.parked == {}
  }

  function Add<T>(s: State<T>, item: T, w: Option<Consumer>): State<T> {
    var woken := if w.Some? then {w.value} else {};
    s.(items := s.items + [item], accepted := s.accepted + [item], parked := s.parked - woken, woken := s.woken + woken)
  }

  function Take<T>(s: State<T>): State<T> {
    if s.items == [] then s else s.(items := s.items[1..], popped := s.popped + [s.items[0]])
  }

  /** The consumer returns; its watcher, unless it has broadcast already, is told so. */
  function Leave<T>(s: State<T>, w: Consumer): State<T> {
    s.(woken := s.woken - {w}, watching := s.watching - {w},
       leaving := if w in s.watching then s.leaving + multiset{w} else s.leaving)
  }

  function WakeAll<T>(s: State<T>): State<T> {
    s.(woken := s.woken + s.parked, parked := {})
  }

  predicate Next<T(==)>(s: State<T>, step: Step<T>, s': State<T>) {
    match step
    case Push(x, w) => Signals(s, w) && s' == Add(s, x, w)
    case TryPush(x, max, w) =>
      if |s.items| >= max then s' == s else Signals(s, w) && s' == Add(s, x, w)
    case Pop => s' == Take(s)
    case Drain => s' == s.(items := [], popped := s.popped + s.items)
    case Enter(w) =>
      && w !in s.parked && w !in s.woken
      && s' == if s.items != [] then Take(s)
               else if w in s.cancelled then s.(leaving := s.leaving + multiset{w})
               else s.(parked := s.parked + {w}, watching := s.watching + {w})
    case Wake(w) =>
      && w in s.woken
      && s' == if w in s.cancelled then Leave(s, w)
               else if s.items == [] then s.(woken := s.woken - {w}, parked := s.parked + {w})
               else Take(Leave(s, w))
    case Cancel(w) => s' == s.(cancelled := s.cancelled + {w})
    case Broadcast(w) => w in s.cancelled && w in s.watching && s' == WakeAll(s.(watching := s.watching - {w}))
    case LateBroadcast(w) => w in s.cancelled && w in s.leaving && s' == WakeAll(s.(leaving := s.leaving - multiset{w}))
    case Retire(w) => w in s.leaving && s' == s.(leaving := s.leaving - multiset{w})
  }

  predicate Inv<T(==)>(s: State<T>) {
    && s.accepted == s.popped + s.items
    && s.parked !! s.woken
    && (forall w :: w in s.parked ==> w in s.watching)
    && (forall w :: w in s.woken && w !in s.cancelled ==> w in s.watching)
  }

  lemma StepKeepsInv<T>(s: State<T>, step: Step<T>, s': State<T>)
    requires Inv(s) && Next(s, step, s')
    ensures Inv(s')
  {
  }

  /**
   A consumer that finds an item takes the front one and returns, cancelled or not; one that was woken
   takes it unless it was cancelled; one that finds nothing waits unless it was cancelled.
   */
  lemma ConsumersAreExact<T>(s: State<T>, step: Step<T>, s': State<T>)
    requires Next(s, step, s')
    ensures step.Enter? && s.items != [] ==> s.items == [s.items[0]] + s'.items && s'.popped == s.popped + [s.items[0]] && s'.parked == s.parked
    ensures step.Enter? && s.items == [] ==> (step.w in s'.parked <==> step.w !in s.cancelled) && s'.popped == s.popped
    ensures step.Wake? && step.w !in s.cancelled && s.items != [] ==>
              s.items == [s.items[0]] + s'.items && s'.popped == s.popped + [s.items[0]] && step.w !in s'.woken
    ensures step.Wake? && step.w !in s.cancelled && s.items == [] ==> step.w in s'.parked && s'.items == []
    ensures step.Wake? && step.w in s.cancelled ==> s'.items == s.items && step.w !in s'.woken && s'.parked == s.parked
    ensures step.Push? ==> s'.items == s.items + [step.item]
    ensures step.TryPush? ==> s'.items == if |s.items| < step.max then s.items + [step.item] else s.items
    ensures step.Drain? ==> s'.items == [] && s'.popped == s.popped + s.items
  {
  }

  // ---- wake-ups ------------------------------------------------------------

  /** Beside parked consumers, every item has a woken consumer on its way. */
  predicate Attended<T>(s: State<T>) {
    s.parked != {} ==> |s.items| <= |s.woken|
  }

  /** A cancelled consumer that was woken for an item returns without it, and nobody is left to take it. */
  predicate Swallows<T>(s: State<T>, step: Step<T>) {
    step.Wake? && step.w in s.woken && step.w in s.cancelled && s.items != [] && s.parked != {} && |s.items| == |s.woken|
  }

  lemma AddAttends<T>(s: State<T>, item: T, w: Option<Consumer>)
    requires Attended(s) && Signals(s, w) && s.parked !! s.woken
    ensures Attended(Add(s, item, w))
  {
    if w.Some? {
      assert |s.woken + {w.value}| == |s.woken| + 1;
    }
  }

  /** From an attended state, exactly a swallowed wake-up leads to one that is not. */
  lemma StepAttends<T>(s: State<T>, step: Step<T>, s': State<T>)
    requires Inv(s) && Attended(s) && Next(s, step, s')
    ensures Attended(s') <==> !Swallows(s, step)
  {
    match step
    case Push(x, w) => AddAttends(s, x, w);
    case TryPush(x, max, w) =>
      if |s.items| < max {
        AddAttends(s, x, w);
      }
    case Wake(w) => assert s'.woken == s.woken - {w} && |s.woken - {w}| == |s.woken| - 1;
    case _ =>
  }

  // ---- whole runs ----------------------------------------------------------

  function Empty<T>(): State<T> {
    State([], {}, {}, {}, {}, multiset{}, [], [])
  }

  ghost predicate Run<T(!new)>(ss: seq<State<T>>, steps: seq<Step<T>>) {
    && |ss| == |steps| + 1 && ss[0] == Empty()
    && forall i :: 0 <= i < |steps| ==> Next(ss[i], steps[i], ss[i + 1])
  }

  lemma {:induction false} AlwaysInv<T(!new)>(ss: seq<State<T>>, steps: seq<Step<T>>, n: nat)
    requires Run(ss, steps) && n < |ss|
    ensures Inv(ss[n])
  {
    if n == 0 {
    } else {
      AlwaysInv(ss, steps, n - 1);
      StepKeepsInv(ss[n - 1], steps[n - 1], ss[n]);
    }
  }

  /**
   In every run, cancelled pops included: what was accepted is what was popped followed by
   what remains, in order; and every parked consumer has a watcher, so a cancelled one is woken.
   */
  lemma QueueConserves<T(!new)>(ss: seq<State<T>>, steps: seq<Step<T>>, n: nat)
    requires Run(ss, steps) && n < |ss|
    ensures ss[n].accepted == ss[n].popped + ss[n].items
    ensures forall w :: w in ss[n].parked ==> w in ss[n].watching
  {
    AlwaysInv(ss, steps, n);
  }

  /** A queue that is only filled by TryPush with one bound never exceeds it. */
  lemma {:induction false} QueueIsBounded<T(!new)>(ss: seq<State<T>>, steps: seq<Step<T>>, max: nat, n: nat)
    requires Run(ss, steps) && n < |ss|
    requires forall i :: 0 <= i < n ==> !steps[i].Push? && (steps[i].TryPush? ==> steps[i].max == max)
    ensures |ss[n].items| <= max
  {
    if n != 0 {
      QueueIsBounded(ss, steps, max, n - 1);
      assert Next(ss[n - 1], steps[n - 1], ss[n]);
    }
  }

  /** Step k swallowed a wake-up, and up to n nobody has come to take the item. */
  ghost predicate SwallowedAt<T(!new)>(ss: seq<State<T>>, steps: seq<Step<T>>, k: nat, n: nat)
    requires |ss| == |steps| + 1 && n <= |steps|
  {
    k < n && Attended(ss[k]) && Swallows(ss[k], steps[k]) && forall j :: k + 1 < j <= n ==> !Attended(ss[j])
  }

  lemma RunStepAttends<T(!new)>(ss: seq<State<T>>, steps: seq<Step<T>>, i: nat)
    requires Run(ss, steps) && i < |steps|
    ensures Attended(ss[i]) ==> (Attended(ss[i + 1]) <==> !Swallows(ss[i], steps[i]))
  {
    AlwaysInv(ss, steps, i);
    if Attended(ss[i]) {
      StepAttends(ss[i], steps[i], ss[i + 1]);
    }
  }

  lemma UnattendedTrace<T(!new)>(ss: seq<State<T>>, steps: seq<Step<T>>) returns (on: seq<bool>, did: seq<bool>, undid: seq<bool>)
    requires Run(ss, steps)
    ensures |on| == |ss| && |did| == |undid| == |steps| && !on[0]
    ensures forall i :: 0 <= i < |ss| ==> on[i] == !Attended(ss[i])
    ensures forall i :: 0 <= i < |steps| ==> did[i] == (Attended(ss[i]) && Swallows(ss[i], steps[i]))
    ensures forall i :: 0 <= i < |steps| ==> (on[i + 1] <==> (on[i] && !undid[i]) || did[i])
  {
    on := seq(|ss|, i requires 0 <= i < |ss| => !Attended(ss[i]));
    did := seq(|steps|, i requires 0 <= i < |steps| => Attended(ss[i]) && Swallows(ss[i], steps[i]));
    undid := seq(|steps|, i requires 0 <= i < |steps| => Attended(ss[i + 1]));
    forall i | 0 <= i < |steps| ensures on[i + 1] <==> (on[i] && !undid[i]) || did[i] {
      RunStepAttends(ss, steps, i);
    }
  }

  /** In every run an item waits unattended if and only if a cancelled consumer swallowed its wake-up. */
  lemma UnattendedIff<T(!new)>(ss: seq<State<T>>, steps: seq<Step<T>>, n: nat)
    requires Run(ss, steps) && n <= |steps|
    ensures !Attended(ss[n]) <==> exists k :: SwallowedAt(ss, steps, k, n)
  {
    var on, did, undid := UnattendedTrace(ss, steps);
    GoesBack(on, did, undid, n);
    if on[n] {
      var k: nat :| Since(did, undid, k, n);
      forall j | k + 1 < j <= n ensures !Attended(ss[j]) {
        HoldsSince(on, did, undid, k, n, j);
      }
      assert SwallowedAt(ss, steps, k, n);
    }
    if k: nat :| SwallowedAt(ss, steps, k, n) {
      RunStepAttends(ss, steps, k);
      assert k + 1 == n || !Attended(ss[n]);
    }
  }

  lemma {:induction false} NobodyCancelled<T(!new)>(ss: seq<State<T>>, steps: seq<Step<T>>, n: nat)
    requires Run(ss, steps) && n < |ss| && forall i :: 0 <= i < n ==> !steps[i].Cancel?
    ensures ss[n].cancelled == {}
  {
    if n != 0 {
      NobodyCancelled(ss, steps, n - 1);
      assert Next(ss[n - 1], steps[n - 1], ss[n]);
    }
  }

  /** As long as no consumer is cancelled, no item waits beside parked consumers with nobody woken. */
  lemma WithoutCancelAttended<T(!new)>(ss: seq<State<T>>, steps: seq<Step<T>>, n: nat)
    requires Run(ss, steps) && n <= |steps| && forall i :: 0 <= i < n ==> !steps[i].Cancel?
    ensures Attended(ss[n])
    ensures ss[n].parked != {} && ss[n].items != [] ==> ss[n].woken != {}
  {
    UnattendedIff(ss, steps, n);
    if k: nat :| SwallowedAt(ss, steps, k, n) {
      NobodyCancelled(ss, steps, k);
    }
  }

  /** A broadcast, also a late one, attends to everything: nobody is left parked. */
  lemma BroadcastRescues<T>(s: State<T>, step: Step<T>, s': State<T>)
    requires Next(s, step, s') && (step.Broadcast? || step.LateBroadcast?)
    ensures Attended(s') && s'.parked == {} && s.parked <= s'.woken && s'.items == s.items
  {
  }

  /**
   A wake-up can be swallowed for good: the signalled consumer is cancelled and leaves, its watcher
   sees it leave before it sees the cancellation, and the other consumer stays parked beside the item.
   */
  lemma WakeUpCanBeSwallowed<T(!new)>(x: T) returns (ss: seq<State<T>>, steps: seq<Step<T>>)
    ensures Run(ss, steps)
    ensures var s := ss[|ss| - 1];
            s.items == [x] && s.parked == {1} && s.woken == {} && s.leaving == multiset{} && !Attended(s)
  {
    var s0: State<T> := Empty();
    var s1 := s0.(parked := {0}, watching := {0});
    var s2 := s1.(parked := {0, 1}, watching := {0, 1});
    var s3 := s2.(items := [x], accepted := [x], parked := {1}, woken := {0});
    var s4 := s3.(cancelled := {0});
    var s5 := s4.(woken := {}, watching := {1}, leaving := multiset{0});
    var s6 := s5.(leaving := multiset{});
    ss, steps := [s0, s1, s2, s3, s4, s5, s6], [Enter(0), Enter(1), Push(x, Some(0)), Cancel(0), Wake(0), Retire(0)];
    assert Next(s2, steps[2], s3) by {
      assert {0, 1} - {0} == {1};
    }
    assert Next(s4, steps[4], s5) by {
      assert {0, 1} - {0} == {1};
    }
    assert Next(s5, steps[5], s6);
  }
}

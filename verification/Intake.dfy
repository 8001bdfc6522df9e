/**
 Inbox intake: de-duplication (section 5.2 of the W3C ActivityPub Recommendation), the
 bounded queue and dispatch. Concurrent POSTs, the inbox workers and restarts interleave;
 the activities table survives a restart, everything in memory does not.
 */
module Intake {
  import opened Base

  const QUEUE_SIZE: nat := 256

  datatype Activity = Activity(id: Key, follow: bool)

  datatype Stage =
    | Received   // verified, not yet recorded
    | Recorded   // past the dedup row
    | Queued
    | Held       // taken by a worker
    | Dispatched
    | Dropped    // answered as a duplicate, an error or busy, or lost in a restart

  datatype Post = Post(activity: Activity, stage: Stage)

  /** `seen` maps an activity id to the POST that inserted its row; `worker` is whether workers are configured. */
  datatype State = State(worker: bool, seen: map<Key, nat>, posts: map<nat, Post>, queue: seq<nat>, dispatched: seq<nat>)

  datatype Step =
    | Receive(k: nat, activity: Activity)
    | Dedup(k: nat, followGone: bool)
    | Refuse(k: nat, inserted: bool) // the database call failed, before or after its effect
    | Enqueue(k: nat)
    | Pop
    | Dispatch(k: nat)               // by a worker
    | DispatchInline(k: nat)         // no worker is configured
    | Restart

  function At(s: State, k: nat, stage: Stage): State
    requires k in s.posts
  {
    s.(posts := s.posts[k := s.posts[k].(stage := stage)])
  }

  predicate Is(s: State, k: nat, stage: Stage) {
    k in s.posts && s.posts[k].stage == stage
  }

  /** InsertActivityIfNew */
  function Insert(s: State, k: nat): map<Key, nat>
    requires k in s.posts
  {
    var id := s.posts[k].activity.id;
    if id in s.seen then s.seen else s.seen[id := k]
  }

  ghost predicate Next(s: State, step: Step, s': State) {
    match step
    case Receive(k, a) => k !in s.posts && s' == s.(posts := s.posts[k := Post(a, Received)])
    case Dedup(k, gone) =>
      && Is(s, k, Received)
      && var a := s.posts[k].activity;
         s' == if a.follow && gone then At(s, k, Recorded)
               else if a.id in s.seen then At(s, k, Dropped)
               else At(s, k, Recorded).(seen := Insert(s, k))
    case Refuse(k, inserted) =>
      Is(s, k, Received) && s' == At(s, k, Dropped).(seen := if inserted then Insert(s, k) else s.seen)
    case Enqueue(k) =>
      && s.worker && Is(s, k, Recorded)
      && s' == if |s.queue| >= QUEUE_SIZE then At(s, k, Dropped) else At(s, k, Queued).(queue := s.queue + [k])
    case Pop =>
      s.queue != [] && s.queue[0] in s.posts && s' == At(s, s.queue[0], Held).(queue := s.queue[1..])
    case Dispatch(k) => Is(s, k, Held) && s' == At(s, k, Dispatched).(dispatched := s.dispatched + [k])
    case DispatchInline(k) => !s.worker && Is(s, k, Recorded) && s' == At(s, k, Dispatched).(dispatched := s.dispatched + [k])
    case Restart =>
      s' == s.(queue := [],
               posts := map k | k in s.posts :: if s.posts[k].stage == Dispatched then s.posts[k] else s.posts[k].(stage := Dropped))
  }

  /**
   De-duplication: an activity goes on exactly when its id was not recorded yet, and is recorded then;
   a Follow whose relationship is gone goes on in any case and records nothing.
   */
  lemma DedupIsExact(s: State, k: nat, gone: bool, s': State)
    requires Next(s, Dedup(k, gone), s')
    ensures var a := s.posts[k].activity;
            if a.follow && gone then Is(s', k, Recorded) && s'.seen == s.seen
            else && (Is(s', k, Recorded) <==> a.id !in s.seen) && (Is(s', k, Dropped) <==> a.id in s.seen)
                 && a.id in s'.seen && s'.seen[a.id] == (if a.id in s.seen then s.seen[a.id] else k)
                 && (forall id :: id != a.id ==> (id in s'.seen <==> id in s.seen) && (id in s.seen ==> s'.seen[id] == s.seen[id]))
    ensures s'.queue == s.queue && s'.dispatched == s.dispatched && forall j :: j in s.posts && j != k ==> j in s'.posts && s'.posts[j] == s.posts[j]
  {
  }

  /** The workers take activities in the order in which they were queued, and a full queue turns the next one away. */
  lemma QueueIsFifo(s: State, step: Step, s': State)
    requires Next(s, step, s')
    ensures step.Enqueue? ==> if |s.queue| < QUEUE_SIZE then s'.queue == s.queue + [step.k] && Is(s', step.k, Queued)
                              else s'.queue == s.queue && Is(s', step.k, Dropped)
    ensures step.Pop? ==> s.queue == [s.queue[0]] + s'.queue && Is(s', s.queue[0], Held)
    ensures step.Dispatch? || step.DispatchInline? ==> s'.dispatched == s.dispatched + [step.k]
  {
  }

  predicate Live(stage: Stage) {
    stage == Recorded || stage == Queued || stage == Held || stage == Dispatched
  }

  /** A POST whose activity may still take effect, or has, is the one that recorded it. */
  predicate PostOk(s: State, k: nat)
    requires k in s.posts
  {
    var a := s.posts[k].activity;
    Live(s.posts[k].stage) && !a.follow ==> a.id in s.seen && s.seen[a.id] == k
  }

  predicate All(s: State, q: seq<nat>, stage: Stage) {
    && (forall i :: 0 <= i < |q| ==> Is(s, q[i], stage))
    && (forall i, j :: 0 <= i < j < |q| ==> q[i] != q[j])
  }

  /** The recorded POST is known and past its dedup. */
  ghost predicate RecordOk(s: State, id: Key)
    requires id in s.seen
  {
    s.seen[id] in s.posts && s.posts[s.seen[id]].activity.id == id && s.posts[s.seen[id]].stage != Received
  }

  /** A queued or dispatched POST is in its list. */
  ghost predicate ListOk(s: State, k: nat) {
    (Is(s, k, Queued) ==> k in s.queue) && (Is(s, k, Dispatched) ==> k in s.dispatched)
  }

  ghost predicate Inv(s: State) {
    && (forall k :: k in s.posts ==> PostOk(s, k))
    && (forall id :: id in s.seen ==> RecordOk(s, id))
    && (forall k :: ListOk(s, k))
    && All(s, s.queue, Queued) && All(s, s.dispatched, Dispatched)
    && |s.queue| <= QUEUE_SIZE
  }

  lemma StepKeepsPost(s: State, step: Step, s': State, k: nat)
    requires Next(s, step, s') && All(s, s.queue, Queued) && k in s'.posts && (k in s.posts ==> PostOk(s, k))
    ensures PostOk(s', k)
  {
  }

  /** Only the front is popped, and only a restart drops what is queued; a dispatch is final. */
  lemma StepKeepsStage(s: State, step: Step, s': State, k: nat)
    requires Next(s, step, s') && All(s, s.queue, Queued)
    ensures Is(s, k, Queued) && !step.Restart? && !(step.Pop? && k == s.queue[0]) ==> Is(s', k, Queued)
    ensures Is(s, k, Dispatched) ==> Is(s', k, Dispatched)
  {
  }

  lemma StepKeepsQueue(s: State, step: Step, s': State)
    requires Next(s, step, s') && All(s, s.queue, Queued) && |s.queue| <= QUEUE_SIZE
    ensures All(s', s'.queue, Queued) && |s'.queue| <= QUEUE_SIZE
  {
    forall i | 0 <= i < |s.queue|
      ensures !step.Restart? && !(step.Pop? && i == 0) ==> Is(s', s.queue[i], Queued)
    {
      StepKeepsStage(s, step, s', s.queue[i]);
    }
    if step.Pop? {
      assert forall i :: 0 <= i < |s'.queue| ==> s'.queue[i] == s.queue[i + 1];
    }
  }

  lemma StepKeepsDispatched(s: State, step: Step, s': State)
    requires Next(s, step, s') && All(s, s.dispatched, Dispatched) && All(s, s.queue, Queued)
    ensures All(s', s'.dispatched, Dispatched)
  {
    forall i | 0 <= i < |s.dispatched| ensures Is(s', s.dispatched[i], Dispatched) {
      StepKeepsStage(s, step, s', s.dispatched[i]);
    }
  }

  lemma StepKeepsRecord(s: State, step: Step, s': State, id: Key)
    requires Next(s, step, s') && All(s, s.queue, Queued) && id in s'.seen && (id in s.seen ==> RecordOk(s, id))
    ensures RecordOk(s', id)
  {
  }

  lemma RestHolds(q: seq<nat>, k: nat)
    requires q != [] && k in q && k != q[0]
    ensures k in q[1..]
  {
    var i :| 0 <= i < |q| && q[i] == k;
    assert q[1..][i - 1] == k;
  }

  lemma StepKeepsList(s: State, step: Step, s': State, k: nat)
    requires Next(s, step, s') && ListOk(s, k)
    ensures ListOk(s', k)
  {
    if step.Pop? && Is(s', k, Queued) {
      RestHolds(s.queue, k);
    }
  }

  lemma StepKeepsInv(s: State, step: Step, s': State)
    requires Inv(s) && Next(s, step, s')
    ensures Inv(s')
  {
    forall id | id in s'.seen ensures RecordOk(s', id) {
      StepKeepsRecord(s, step, s', id);
    }
    forall k ensures ListOk(s', k) {
      StepKeepsList(s, step, s', k);
    }
    forall k | k in s'.posts ensures PostOk(s', k) {
      StepKeepsPost(s, step, s', k);
    }
    StepKeepsQueue(s, step, s');
    StepKeepsDispatched(s, step, s');
  }

  // ---- whole runs ----------------------------------------------------------

  function Fresh(worker: bool): State {
    State(worker, map[], map[], [], [])
  }

  ghost predicate Run(ss: seq<State>, steps: seq<Step>) {
    && |ss| == |steps| + 1 && ss[0] == Fresh(ss[0].worker)
    && forall i :: 0 <= i < |steps| ==> Next(ss[i], steps[i], ss[i + 1])
  }

  lemma {:induction false} AlwaysInv(ss: seq<State>, steps: seq<Step>, n: nat)
    requires Run(ss, steps) && n < |ss|
    ensures Inv(ss[n])
  {
    if n == 0 {
    } else {
      AlwaysInv(ss, steps, n - 1);
      StepKeepsInv(ss[n - 1], steps[n - 1], ss[n]);
    }
  }

  function ActivityOf(s: State, i: nat): Activity
    requires i < |s.dispatched| && s.dispatched[i] in s.posts
  {
    s.posts[s.dispatched[i]].activity
  }

  /**
   Across concurrent POSTs and restarts no two dispatches carry the same activity id,
   Follow aside, and the queue stays within its bound.
   */
  lemma DispatchedAtMostOnce(ss: seq<State>, steps: seq<Step>, n: nat)
    requires Run(ss, steps) && n < |ss|
    ensures forall i :: 0 <= i < |ss[n].dispatched| ==> ss[n].dispatched[i] in ss[n].posts
    ensures forall i, j :: 0 <= i < j < |ss[n].dispatched| && !ActivityOf(ss[n], i).follow && !ActivityOf(ss[n], j).follow
              ==> ActivityOf(ss[n], i).id != ActivityOf(ss[n], j).id
    ensures |ss[n].queue| <= QUEUE_SIZE
  {
    AlwaysInv(ss, steps, n);
    var s := ss[n];
    forall i, j | 0 <= i < j < |s.dispatched| && !ActivityOf(s, i).follow && !ActivityOf(s, j).follow
      ensures ActivityOf(s, i).id != ActivityOf(s, j).id
    {
      assert PostOk(s, s.dispatched[i]) && PostOk(s, s.dispatched[j]);
    }
  }

  /** The POST that recorded the id was dropped after recording it. */
  predicate Spent(s: State, id: Key) {
    id in s.seen && Is(s, s.seen[id], Dropped)
  }

  lemma StepKeepsSpent(s: State, step: Step, s': State, id: Key)
    requires All(s, s.queue, Queued) && Next(s, step, s') && Spent(s, id)
    ensures Spent(s', id)
  {
  }

  lemma StaysSpent(ss: seq<State>, steps: seq<Step>, m: nat, n: nat, id: Key)
    requires Run(ss, steps) && m <= n < |ss| && Spent(ss[m], id)
    ensures Spent(ss[n], id)
  {
    var p := seq(|ss|, k requires 0 <= k < |ss| => Spent(ss[k], id));
    forall k | 0 <= k < |p| - 1 && p[k] ensures p[k + 1] {
      AlwaysInv(ss, steps, k);
      StepKeepsSpent(ss[k], steps[k], ss[k + 1], id);
    }
    StaysTrue(p, m, n);
  }

  /** A non-Follow activity with this id was dispatched. */
  ghost predicate Took(s: State, id: Key) {
    exists k :: k in s.dispatched && k in s.posts && s.posts[k].activity == Activity(id, false)
  }

  lemma TookIsNotSpent(s: State, id: Key)
    requires Inv(s)
    ensures Took(s, id) ==> !Spent(s, id)
  {
    if k :| k in s.dispatched && k in s.posts && s.posts[k].activity == Activity(id, false) {
      assert Is(s, k, Dispatched) && PostOk(s, k);
    }
  }

  /**
   The answer "busy, retry later" is final: once the POST that recorded an activity was
   dropped, by a full queue, an error or a restart, no retry of it is ever dispatched.
   */
  lemma BusyIsFinal(ss: seq<State>, steps: seq<Step>, m: nat, n: nat, id: Key)
    requires Run(ss, steps) && m <= n < |ss| && Spent(ss[m], id)
    ensures !Took(ss[n], id)
  {
    StaysSpent(ss, steps, m, n, id);
    AlwaysInv(ss, steps, n);
    TookIsNotSpent(ss[n], id);
  }

  // ---- the other half: what is not spent can still be dispatched -----------

  ghost predicate Chain(ss: seq<State>, steps: seq<Step>) {
    |ss| == |steps| + 1 && forall i :: 0 <= i < |steps| ==> Next(ss[i], steps[i], ss[i + 1])
  }

  lemma ChainCons(s: State, step: Step, ss: seq<State>, steps: seq<Step>)
    requires Chain(ss, steps) && Next(s, step, ss[0])
    ensures Chain([s] + ss, [step] + steps)
  {
    forall i | 0 <= i < |steps| + 1 ensures Next(([s] + ss)[i], ([step] + steps)[i], ([s] + ss)[i + 1]) {
      assert 0 < i ==> Next(ss[i - 1], steps[i - 1], ss[i]);
    }
  }

  /** Some continuation of the run dispatches the activity. */
  ghost predicate CanTake(s: State, id: Key) {
    exists ss, steps :: Chain(ss, steps) && ss[0] == s && Took(ss[|steps|], id)
  }

  lemma DispatchTakes(s: State, k: nat, id: Key)
    requires k in s.posts && s.posts[k].activity == Activity(id, false)
    ensures Took(At(s, k, Dispatched).(dispatched := s.dispatched + [k]), id)
  {
    var s' := At(s, k, Dispatched).(dispatched := s.dispatched + [k]);
    assert s'.dispatched[|s.dispatched|] == k;
    assert k in s'.dispatched && k in s'.posts && s'.posts[k].activity == Activity(id, false);
  }

  lemma CanTakeFirst(s: State, step: Step, s': State, id: Key)
    requires Next(s, step, s') && CanTake(s', id)
    ensures CanTake(s, id)
  {
    var ss, steps :| Chain(ss, steps) && ss[0] == s' && Took(ss[|steps|], id);
    ChainCons(s, step, ss, steps);
    assert ([s] + ss)[|steps| + 1] == ss[|steps|];
  }

  lemma HeldCanTake(s: State, k: nat, id: Key)
    requires Is(s, k, Held) && s.posts[k].activity == Activity(id, false)
    ensures CanTake(s, id)
  {
    var s' := At(s, k, Dispatched).(dispatched := s.dispatched + [k]);
    DispatchTakes(s, k, id);
    assert Next(s, Dispatch(k), s');
    assert Chain([s, s'], [Dispatch(k)]);
  }

  /** Workers pop what is ahead until it is the activity's turn. */
  lemma {:induction false} QueuedCanTake(s: State, k: nat, i: nat, id: Key)
    requires All(s, s.queue, Queued) && |s.queue| <= QUEUE_SIZE && i < |s.queue| && s.queue[i] == k
    requires k in s.posts && s.posts[k].activity == Activity(id, false)
    ensures CanTake(s, id)
    decreases i
  {
    var s' := At(s, s.queue[0], Held).(queue := s.queue[1..]);
    assert Next(s, Pop, s');
    if i == 0 {
      HeldCanTake(s', k, id);
    } else {
      StepKeepsQueue(s, Pop, s');
      assert s'.queue[i - 1] == k;
      QueuedCanTake(s', k, i - 1, id);
    }
    CanTakeFirst(s, Pop, s', id);
  }

  lemma RoomCanTake(s: State, k: nat, id: Key)
    requires s.worker && All(s, s.queue, Queued) && |s.queue| < QUEUE_SIZE
    requires Is(s, k, Recorded) && s.posts[k].activity == Activity(id, false)
    ensures CanTake(s, id)
  {
    var s' := At(s, k, Queued).(queue := s.queue + [k]);
    assert Next(s, Enqueue(k), s');
    StepKeepsQueue(s, Enqueue(k), s');
    QueuedCanTake(s', k, |s.queue|, id);
    CanTakeFirst(s, Enqueue(k), s', id);
  }

  lemma RecordedCanTake(s: State, k: nat, id: Key)
    requires Inv(s) && Is(s, k, Recorded) && s.posts[k].activity == Activity(id, false)
    ensures CanTake(s, id)
  {
    if !s.worker {
      var s' := At(s, k, Dispatched).(dispatched := s.dispatched + [k]);
      DispatchTakes(s, k, id);
      assert Next(s, DispatchInline(k), s');
      assert Chain([s, s'], [DispatchInline(k)]);
    } else if |s.queue| < QUEUE_SIZE {
      RoomCanTake(s, k, id);
    } else {
      var s' := At(s, s.queue[0], Held).(queue := s.queue[1..]);
      assert Next(s, Pop, s') && Is(s', k, Recorded);
      StepKeepsQueue(s, Pop, s');
      RoomCanTake(s', k, id);
      CanTakeFirst(s, Pop, s', id);
    }
  }

  lemma UnspentCanTake(s: State, id: Key)
    requires Inv(s) && id in s.seen && !Spent(s, id) && s.posts[s.seen[id]].activity == Activity(id, false)
    ensures CanTake(s, id)
  {
    var k := s.seen[id];
    assert RecordOk(s, id) && ListOk(s, k);
    match s.posts[k].stage
    case Recorded => RecordedCanTake(s, k, id);
    case Queued =>
      var i :| 0 <= i < |s.queue| && s.queue[i] == k;
      QueuedCanTake(s, k, i, id);
    case Held => HeldCanTake(s, k, id);
    case Dispatched => assert Took(s, id) && Chain([s], []);
    case _ =>
  }

  lemma ChainExtends(ss: seq<State>, steps: seq<Step>, ts: seq<State>, more: seq<Step>)
    requires Run(ss, steps) && Chain(ts, more) && ts[0] == ss[|steps|]
    ensures Run(ss + ts[1..], steps + more) && (ss + ts[1..])[|steps| + |more|] == ts[|more|]
  {
    var all, done := ss + ts[1..], steps + more;
    forall i | 0 <= i < |done| ensures Next(all[i], done[i], all[i + 1]) {
      if i < |steps| {
        assert Next(ss[i], steps[i], ss[i + 1]);
      } else {
        assert Next(ts[i - |steps|], more[i - |steps|], ts[i - |steps| + 1]);
      }
    }
  }

  /**
   Exactly: after any run, a recorded activity can still be dispatched, or has been, if and only if
   the POST that recorded it was not dropped.
   */
  lemma SpentIff(ss: seq<State>, steps: seq<Step>, id: Key)
    requires Run(ss, steps) && id in ss[|steps|].seen && ss[|steps|].seen[id] in ss[|steps|].posts
    requires !ss[|steps|].posts[ss[|steps|].seen[id]].activity.follow
    ensures CanTake(ss[|steps|], id) <==> !Spent(ss[|steps|], id)
  {
    var s := ss[|steps|];
    AlwaysInv(ss, steps, |steps|);
    assert RecordOk(s, id);
    if Spent(s, id) {
      if ts, more :| Chain(ts, more) && ts[0] == s && Took(ts[|more|], id) {
        ChainExtends(ss, steps, ts, more);
        assert (ss + ts[1..])[|steps|] == s;
        BusyIsFinal(ss + ts[1..], steps + more, |steps|, |steps| + |more|, id);
      }
    } else {
      UnspentCanTake(s, id);
    }
  }

  // ---- a full queue --------------------------------------------------------

  lemma RunJoin(ss: seq<State>, steps: seq<Step>, step: Step, s: State)
    requires Run(ss, steps) && Next(ss[|steps|], step, s)
    ensures Run(ss + [s], steps + [step])
  {
    forall i | 0 <= i < |steps| + 1 ensures Next((ss + [s])[i], (steps + [step])[i], (ss + [s])[i + 1]) {
      assert i < |steps| ==> Next(ss[i], steps[i], ss[i + 1]);
    }
  }

  /** Nothing is known yet of POST n and of activity n + 1. */
  ghost predicate Unused(s: State, n: nat) {
    (forall k :: k in s.posts ==> k < n) && (forall id :: id in s.seen ==> id <= n)
  }

  /** One more POST, received and recorded. */
  lemma PostRun(ss: seq<State>, steps: seq<Step>, n: nat) returns (ts: seq<State>, more: seq<Step>)
    requires Run(ss, steps) && Unused(ss[|steps|], n)
    ensures Run(ts, more) && Unused(ts[|more|], n + 1)
    ensures var s, t := ss[|steps|], ts[|more|];
            && Is(t, n, Recorded) && t.posts[n].activity == Activity(n + 1, false)
            && n + 1 in t.seen && t.seen[n + 1] == n && t.worker == s.worker && t.queue == s.queue
  {
    var s, a := ss[|steps|], Activity(n + 1, false);
    var s1 := s.(posts := s.posts[n := Post(a, Received)]);
    RunJoin(ss, steps, Receive(n, a), s1);
    ts, more := ss + [s1], steps + [Receive(n, a)];
    var s2 := At(s1, n, Recorded).(seen := Insert(s1, n));
    assert Next(s1, Dedup(n, false), s2);
    RunJoin(ts, more, Dedup(n, false), s2);
    ts, more := ts + [s2], more + [Dedup(n, false)];
  }

  /** n POSTs are received, recorded and queued before any worker gets to run. */
  lemma {:induction false} FillRun(n: nat) returns (ss: seq<State>, steps: seq<Step>)
    requires n <= QUEUE_SIZE
    ensures Run(ss, steps) && Unused(ss[|steps|], n) && ss[|steps|].worker && |ss[|steps|].queue| == n
  {
    if n == 0 {
      ss, steps := [Fresh(true)], [];
    } else {
      ss, steps := FillRun(n - 1);
      ss, steps := PostRun(ss, steps, n - 1);
      var s := ss[|steps|];
      var s' := At(s, n - 1, Queued).(queue := s.queue + [n - 1]);
      assert Next(s, Enqueue(n - 1), s');
      RunJoin(ss, steps, Enqueue(n - 1), s');
      ss, steps := ss + [s'], steps + [Enqueue(n - 1)];
    }
  }

  /** A run in which a full queue turns an activity away that was recorded before: it is spent. */
  lemma FullQueueSpends() returns (ss: seq<State>, steps: seq<Step>, id: Key)
    ensures Run(ss, steps) && steps != [] && steps[|steps| - 1].Enqueue?
    ensures |ss[|steps|].queue| == QUEUE_SIZE && Spent(ss[|steps|], id)
    ensures !ss[|steps|].posts[ss[|steps|].seen[id]].activity.follow
  {
    var n := QUEUE_SIZE;
    ss, steps := FillRun(n);
    ss, steps := PostRun(ss, steps, n);
    id := n + 1;
    var s := ss[|steps|];
    var s' := At(s, n, Dropped);
    assert Next(s, Enqueue(n), s');
    RunJoin(ss, steps, Enqueue(n), s');
    ss, steps := ss + [s'], steps + [Enqueue(n)];
  }
}

/**
 The persistent delivery queue (section 7.1 of the W3C ActivityPub Recommendation asks
 for delivery; the retries are the program's own). Workers fetch a batch, post or skip each
 row, and mark the result; the steps of a batch interleave with enqueues and cleanup.
 */
module Delivery {
  import opened Base

  const MAX_ATTEMPTS: nat := 10
  const BATCH: nat := 50
  const BACKOFF_CAP: nat := 12

  datatype Status = Pending | Delivered | Failed

  datatype Row = Row(activity: Key, inbox: Key, status: Status, attempts: nat, max: nat, next: Time, created: Time)

  type Rows = map<Id, Row>

  function Pow2(n: nat): (p: nat)
    ensures 0 < p
  {
    if n == 0 then 1 else 2 * Pow2(n - 1)
  }

  function Delay(attempts: nat): nat {
    Pow2(Minimum(attempts, BACKOFF_CAP))
  }

  // ---- statements ----------------------------------------------------------

  predicate Queued(rows: Rows, activity: Key, inbox: Key) {
    exists i :: i in rows && rows[i].activity == activity && rows[i].inbox == inbox
  }

  function FailedRow(r: Row, attempts: nat, max: nat, now: Time): Row {
    r.(attempts := r.attempts + 1, status := if attempts + 1 >= max then Failed else Pending, next := now + Delay(attempts))
  }

  function DeliveredRow(r: Row): Row {
    r.(attempts := r.attempts + 1, status := Delivered)
  }

  predicate Due(rows: Rows, i: Id, now: Time) {
    i in rows && rows[i].status == Pending && rows[i].next <= now
  }

  /** No row but that of `id` changes, and of that row only status, attempts and next attempt. */
  ghost predicate OnlyRow(rows: Rows, rows': Rows, id: Id) {
    && rows'.Keys == rows.Keys
    && (forall i :: i in rows && i != id ==> rows'[i] == rows[i])
    && (id in rows ==> rows'[id].activity == rows[id].activity && rows'[id].inbox == rows[id].inbox
                       && rows'[id].max == rows[id].max && rows'[id].created == rows[id].created)
  }

  class DeliveryTable {
    var rows: Rows
    var nextId: Id

    constructor ()
      ensures rows == map[] && nextId == 0
    {
      rows, nextId := map[], 0;
    }

    /** EnqueueDeliveryInserted: ON CONFLICT DO NOTHING, and whether a row was inserted. */
    method Enqueue(activity: Key, inbox: Key, now: Time) returns (inserted: bool)
      modifies this
      ensures inserted <==> !Queued(old(rows), activity, inbox)
      ensures inserted ==> rows == old(rows)[old(nextId) := Row(activity, inbox, Pending, 0, MAX_ATTEMPTS, now, now)]
                           && nextId == old(nextId) + 1
      ensures !inserted ==> rows == old(rows) && nextId == old(nextId)
    {
      inserted := !Queued(rows, activity, inbox);
      if inserted {
        rows := rows[nextId := Row(activity, inbox, Pending, 0, MAX_ATTEMPTS, now, now)];
        nextId := nextId + 1;
      }
    }

    method MarkDeliveryFailed(id: Id, attempts: nat, max: nat, now: Time)
      modifies this`rows
      ensures rows == if id in old(rows) then old(rows)[id := FailedRow(old(rows)[id], attempts, max, now)] else old(rows)
      ensures OnlyRow(old(rows), rows, id)
      ensures id in rows ==> rows[id].attempts == old(rows)[id].attempts + 1 && rows[id].next == now + Pow2(Minimum(attempts, 12))
      ensures id in rows ==> (attempts + 1 < max ==> rows[id].status == Pending) && (max <= attempts + 1 ==> rows[id].status == Failed)
    {
      var backoff := 1;
      var i := 0;
      while i < attempts && i < BACKOFF_CAP // 1 << min(attempts, 12)
        invariant 0 <= i <= Minimum(attempts, BACKOFF_CAP)
        invariant backoff == Pow2(i)
      {
        backoff := 2 * backoff;
        i := i + 1;
      }
      var status := Pending;
      if attempts + 1 >= max {
        status := Failed;
      }
      if id in rows {
        rows := rows[id := rows[id].(attempts := rows[id].attempts + 1, status := status, next := now + backoff)];
      }
    }

    method MarkDelivered(id: Id)
      modifies this`rows
      ensures rows == if id in old(rows) then old(rows)[id := DeliveredRow(old(rows)[id])] else old(rows)
      ensures OnlyRow(old(rows), rows, id)
      ensures id in rows ==> rows[id].status == Delivered && rows[id].attempts == old(rows)[id].attempts + 1
                             && rows[id].next == old(rows)[id].next
    {
      if id in rows {
        rows := rows[id := rows[id].(status := Delivered, attempts := rows[id].attempts + 1)];
      }
    }
  }

  // ---- the worker ----------------------------------------------------------

  /** A fetched row as the worker remembers it. */
  datatype Attempt = Fetched(attempts: nat, max: nat) | Posted(attempts: nat, max: nat, ok: bool)

  /** `first` is when a row was first attempted, `posts` how often it went over the network. */
  datatype State = State(rows: Rows, nextId: Id, clock: Time, inflight: map<Id, Attempt>,
                         first: map<Id, Time>, posts: map<Id, nat>)

  datatype Step =
    | Enqueue(activity: Key, inbox: Key)
    | Fetch(ids: set<Id>)
    | Skip(id: Id)              // circuit open
    | Post(id: Id, ok: bool)
    | Mark(id: Id)
    | Cleanup(cutoff: Time)
    | Tick(now: Time)

  function Posts(s: State, i: Id): nat {
    if i in s.posts then s.posts[i] else 0
  }

  function Begin(s: State, i: Id): map<Id, Time> {
    if i in s.first then s.first else s.first[i := s.clock]
  }

  ghost predicate Next(s: State, step: Step, s': State) {
    match step
    case Enqueue(a, x) =>
      s' == if Queued(s.rows, a, x) then s
            else s.(rows := s.rows[s.nextId := Row(a, x, Pending, 0, MAX_ATTEMPTS, s.clock, s.clock)], nextId := s.nextId + 1)
    case Fetch(ids) =>
      && s.inflight == map[] && |ids| <= BATCH && (forall i :: i in ids ==> Due(s.rows, i, s.clock))
      && s' == s.(inflight := map i | i in ids :: Fetched(s.rows[i].attempts, s.rows[i].max))
    case Skip(i) =>
      && i in s.inflight && s.inflight[i].Fetched? && i in s.rows
      && s' == s.(rows := s.rows[i := FailedRow(s.rows[i], s.inflight[i].attempts, s.inflight[i].max, s.clock)],
                  inflight := s.inflight - {i}, first := Begin(s, i))
    case Post(i, ok) =>
      && i in s.inflight && s.inflight[i].Fetched?
      && s' == s.(inflight := s.inflight[i := Posted(s.inflight[i].attempts, s.inflight[i].max, ok)],
                  first := Begin(s, i), posts := s.posts[i := Posts(s, i) + 1])
    case Mark(i) =>
      && i in s.inflight && s.inflight[i].Posted? && i in s.rows
      && s' == s.(rows := s.rows[i := if s.inflight[i].ok then DeliveredRow(s.rows[i])
                                      else FailedRow(s.rows[i], s.inflight[i].attempts, s.inflight[i].max, s.clock)],
                  inflight := s.inflight - {i})
    case Cleanup(cutoff) =>
      s' == s.(rows := map i | i in s.rows && !(s.rows[i].status != Pending && s.rows[i].created < cutoff) :: s.rows[i])
    case Tick(now) => s.clock <= now && s' == s.(clock := now)
  }

  // ---- bounds --------------------------------------------------------------

  /** The least time between the first attempt and the k-th retry. */
  function Backoff(k: nat): nat {
    if k == 0 then 0 else Backoff(k - 1) + Delay(k - 1)
  }

  lemma Pow2Twelve()
    ensures Pow2(12) == 4096 && Pow2(13) == 8192
  {
    assert Pow2(4) == 16;
    assert Pow2(8) == 256;
  }

  lemma {:induction false} BackoffClosedForm(k: nat)
    ensures k <= 13 ==> Backoff(k) == Pow2(k) - 1
    ensures 13 <= k ==> Backoff(k) == 8191 + (k - 13) * 4096
  {
    if k == 0 {
    } else {
      BackoffClosedForm(k - 1);
      Pow2Twelve();
      if k <= 13 {
        assert Delay(k - 1) == Pow2(k - 1);
      } else {
        assert Delay(k - 1) == Pow2(12);
      }
    }
  }

  ghost predicate RowOk(s: State, i: Id)
    requires i in s.rows
  {
    var r := s.rows[i];
    && i < s.nextId && r.max == MAX_ATTEMPTS && r.attempts <= r.max
    && (r.status == Pending ==> r.attempts < r.max)
    && (0 < r.attempts ==> i in s.first && s.first[i] <= s.clock)
    && (0 < r.attempts && r.status == Pending ==> s.first[i] + Backoff(r.attempts) <= r.next)
  }

  ghost predicate FlightOk(s: State, i: Id)
    requires i in s.inflight
  {
    && i in s.rows && s.rows[i].status == Pending && s.rows[i].next <= s.clock
    && s.inflight[i].attempts == s.rows[i].attempts && s.inflight[i].max == s.rows[i].max
    && (s.inflight[i].Posted? ==> i in s.first && s.first[i] + Backoff(s.rows[i].attempts) <= s.clock)
  }

  /** A row is posted at most once per attempt. */
  ghost predicate PostsOk(s: State, i: Id) {
    && Posts(s, i) <= MAX_ATTEMPTS
    && (s.nextId <= i ==> Posts(s, i) == 0 && i !in s.first)
    && (i in s.rows ==> Posts(s, i) <= s.rows[i].attempts + if i in s.inflight && s.inflight[i].Posted? then 1 else 0)
    && (i in s.rows && s.rows[i].attempts == 0 && !(i in s.inflight && s.inflight[i].Posted?) ==> i !in s.first)
  }

  ghost predicate Inv(s: State) {
    && (forall i :: i in s.rows ==> RowOk(s, i))
    && (forall i :: i in s.inflight ==> FlightOk(s, i))
    && (forall i: Id :: PostsOk(s, i))
  }

  lemma StepKeepsPosts(s: State, step: Step, s': State, i: Id)
    requires PostsOk(s, i) && Next(s, step, s')
    requires i in s.rows ==> RowOk(s, i)
    requires i in s.inflight ==> FlightOk(s, i)
    ensures PostsOk(s', i)
  {
  }

  lemma StepKeepsRow(s: State, step: Step, s': State, i: Id)
    requires PostsOk(s, i) && Next(s, step, s') && i in s'.rows
    requires i in s.rows ==> RowOk(s, i)
    requires i in s.inflight ==> FlightOk(s, i)
    ensures RowOk(s', i)
  {
  }

  lemma StepKeepsFlight(s: State, step: Step, s': State, i: Id)
    requires PostsOk(s, i) && Next(s, step, s') && i in s'.inflight
    requires i in s.rows ==> RowOk(s, i) && i < s.nextId
    requires i in s.inflight ==> FlightOk(s, i)
    ensures FlightOk(s', i)
  {
  }

  lemma StepKeepsInv(s: State, step: Step, s': State)
    requires Inv(s) && Next(s, step, s')
    ensures Inv(s')
  {
    forall i: Id ensures PostsOk(s', i) {
      StepKeepsPosts(s, step, s', i);
    }
    forall i | i in s'.rows ensures RowOk(s', i) {
      StepKeepsRow(s, step, s', i);
    }
    forall i | i in s'.inflight ensures FlightOk(s', i) {
      StepKeepsFlight(s, step, s', i);
    }
  }

  // ---- whole runs ----------------------------------------------------------

  ghost predicate Run(ss: seq<State>, steps: seq<Step>) {
    && |ss| == |steps| + 1 && ss[0] == State(map[], 0, ss[0].clock, map[], map[], map[])
    && forall i :: 0 <= i < |steps| ==> Next(ss[i], steps[i], ss[i + 1])
  }

  lemma {:induction false} AlwaysInv(ss: seq<State>, steps: seq<Step>, n: nat)
    requires Run(ss, steps) && n < |ss|
    ensures Inv(ss[n])
  {
    if n == 0 {
    } else {
      AlwaysInv(ss, steps, n - 1);
      StepKeepsInv(ss[n - 1], steps[n - 1], ss[n]);
    }
  }

  ghost predicate Attempts(step: Step, i: Id) {
    step == Skip(i) || (step.Post? && step.id == i)
  }

  /**
   In every run: an attempt is made only on a pending row with attempts to spare, the k-th
   retry comes at least Backoff(k) after the first attempt, and no row is posted more often
   than its maximum.
   */
  lemma RetryBounds(ss: seq<State>, steps: seq<Step>, n: nat, i: Id)
    requires Run(ss, steps) && n < |steps| && Attempts(steps[n], i)
    ensures i in ss[n].rows && ss[n].rows[i].status == Pending
    ensures var k := ss[n].rows[i].attempts;
            && k < ss[n].rows[i].max
            && (0 < k ==> i in ss[n].first && ss[n].first[i] + Backoff(k) <= ss[n].clock)
    ensures Posts(ss[n + 1], i) <= MAX_ATTEMPTS
  {
    AlwaysInv(ss, steps, n);
    AlwaysInv(ss, steps, n + 1);
    assert Next(ss[n], steps[n], ss[n + 1]);
    assert FlightOk(ss[n], i) && RowOk(ss[n], i) && PostsOk(ss[n + 1], i);
  }

  /** The row was enqueued, and is delivered, failed, or already cleaned up. */
  ghost predicate Over(s: State, i: Id) {
    i < s.nextId && (i in s.rows ==> s.rows[i].status != Pending)
  }

  lemma StepKeepsOver(s: State, step: Step, s': State, i: Id)
    requires Inv(s) && Next(s, step, s') && Over(s, i)
    ensures Over(s', i) && !Attempts(step, i)
  {
    assert i in s.inflight ==> FlightOk(s, i);
  }

  lemma {:induction false} StaysOver(ss: seq<State>, steps: seq<Step>, m: nat, n: nat, i: Id)
    requires Run(ss, steps) && m <= n < |ss| && Over(ss[m], i)
    ensures Over(ss[n], i)
  {
    if m < n {
      StaysOver(ss, steps, m, n - 1, i);
      AlwaysInv(ss, steps, n - 1);
      StepKeepsOver(ss[n - 1], steps[n - 1], ss[n], i);
    }
  }

  /** A row that has reached a final state is never attempted again. */
  lemma TerminalIsFinal(ss: seq<State>, steps: seq<Step>, m: nat, n: nat, i: Id)
    requires Run(ss, steps) && m <= n < |steps| && Over(ss[m], i)
    ensures !Attempts(steps[n], i)
  {
    StaysOver(ss, steps, m, n, i);
    AlwaysInv(ss, steps, n);
    StepKeepsOver(ss[n], steps[n], ss[n + 1], i);
  }

  // ---- how a row ends ------------------------------------------------------

  /** The worker marks row i after a POST that was answered with success. */
  ghost predicate Succeeds(s: State, step: Step, i: Id) {
    step == Mark(i) && i in s.inflight && s.inflight[i].Posted? && s.inflight[i].ok
  }

  /** It marks row i after a failed POST, or skips it because the circuit is open. */
  ghost predicate Fails(s: State, step: Step, i: Id) {
    step == Skip(i) || (step == Mark(i) && i in s.inflight && s.inflight[i].Posted? && !s.inflight[i].ok)
  }

  /** Cleanup deletes row i: finished, and created before the cutoff. */
  ghost predicate Cleans(s: State, step: Step, i: Id) {
    step.Cleanup? && i in s.rows && s.rows[i].status != Pending && s.rows[i].created < step.cutoff
  }

  /**
   One step, one row: success delivers it; a failure puts it off by a power of two, or fails it at its
   last attempt; nothing else changes a row that stays, and only cleanup removes one.
   */
  lemma StepOnRow(s: State, step: Step, s': State, i: Id)
    requires Next(s, step, s') && i in s.rows && RowOk(s, i) && (i in s.inflight ==> FlightOk(s, i))
    ensures i !in s'.rows <==> Cleans(s, step, i)
    ensures Succeeds(s, step, i) ==> i in s'.rows && s'.rows[i].status == Delivered
    ensures Fails(s, step, i) && s.rows[i].attempts + 1 < MAX_ATTEMPTS ==>
              && i in s'.rows && s'.rows[i].status == Pending
              && s'.rows[i].next == s.clock + Pow2(Minimum(s.rows[i].attempts, 12))
    ensures Fails(s, step, i) && s.rows[i].attempts + 1 == MAX_ATTEMPTS ==> i in s'.rows && s'.rows[i].status == Failed
    ensures Succeeds(s, step, i) || Fails(s, step, i) ==>
              && s.rows[i].status == Pending && s'.rows[i].attempts == s.rows[i].attempts + 1
              && OnlyRow(s.rows, s'.rows, i)
    ensures !Succeeds(s, step, i) && !Fails(s, step, i) && i in s'.rows ==> s'.rows[i] == s.rows[i]
  {
  }

  /** An enqueue leaves the pair queued, with a new row due at once if it was not, and touches no row that was there. */
  lemma EnqueueQueues(s: State, activity: Key, inbox: Key, s': State)
    requires Next(s, Enqueue(activity, inbox), s') && s.nextId !in s.rows
    ensures Queued(s'.rows, activity, inbox) && forall i :: i in s.rows ==> i in s'.rows && s'.rows[i] == s.rows[i]
    ensures if exists i :: i in s.rows && s.rows[i].activity == activity && s.rows[i].inbox == inbox then s' == s
            else && s'.nextId == s.nextId + 1 && s.nextId in s'.rows && s'.rows.Keys == s.rows.Keys + {s.nextId}
                 && s'.rows[s.nextId].status == Pending && s'.rows[s.nextId].attempts == 0 && s'.rows[s.nextId].next == s.clock
                 && s'.rows[s.nextId].max == 10
  {
    if !Queued(s.rows, activity, inbox) {
      assert s'.rows[s.nextId].activity == activity && s'.rows[s.nextId].inbox == inbox;
    }
  }

  lemma RunStepOnRow(ss: seq<State>, steps: seq<Step>, k: nat, i: Id)
    requires Run(ss, steps) && k < |steps| && i in ss[k].rows
    ensures RowOk(ss[k], i) && (i in ss[k].inflight ==> FlightOk(ss[k], i))
  {
    AlwaysInv(ss, steps, k);
  }

  ghost predicate Has(s: State, i: Id, status: Status) {
    i in s.rows && s.rows[i].status == status
  }

  /** The step ends row i in this state. */
  ghost predicate EndsIn(s: State, step: Step, i: Id, status: Status) {
    && i in s.rows
    && match status
       case Pending => false
       case Delivered => Succeeds(s, step, i)
       case Failed => Fails(s, step, i) && s.rows[i].attempts + 1 == MAX_ATTEMPTS
  }

  lemma StepEnds(ss: seq<State>, steps: seq<Step>, k: nat, i: Id, status: Status)
    requires Run(ss, steps) && k < |steps| && status != Pending
    ensures Has(ss[k + 1], i, status) <==>
              (Has(ss[k], i, status) && !Cleans(ss[k], steps[k], i)) || EndsIn(ss[k], steps[k], i, status)
  {
    assert Next(ss[k], steps[k], ss[k + 1]);
    if i in ss[k].rows {
      RunStepOnRow(ss, steps, k, i);
      StepOnRow(ss[k], steps[k], ss[k + 1], i);
    }
  }

  /** Step k ended row i in this state, and up to n it was not cleaned up. */
  ghost predicate EndedAt(ss: seq<State>, steps: seq<Step>, k: nat, n: nat, i: Id, status: Status)
    requires |ss| == |steps| + 1 && n <= |steps|
  {
    k < n && EndsIn(ss[k], steps[k], i, status) && forall j :: k < j < n ==> !Cleans(ss[j], steps[j], i)
  }

  /**
   In every run a row is delivered if and only if the mark of a successful POST ended it, and failed
   if and only if the last of its attempts failed or was skipped, with no cleanup since.
   */
  lemma EndedIff(ss: seq<State>, steps: seq<Step>, n: nat, i: Id, status: Status)
    requires Run(ss, steps) && n <= |steps| && status != Pending
    ensures Has(ss[n], i, status) <==> exists k :: EndedAt(ss, steps, k, n, i, status)
  {
    var on := seq(|ss|, k requires 0 <= k < |ss| => Has(ss[k], i, status));
    var did := seq(|steps|, k requires 0 <= k < |steps| => EndsIn(ss[k], steps[k], i, status));
    var undid := seq(|steps|, k requires 0 <= k < |steps| => Cleans(ss[k], steps[k], i));
    forall k | 0 <= k < |steps| ensures on[k + 1] <==> (on[k] && !undid[k]) || did[k] {
      StepEnds(ss, steps, k, i, status);
    }
    GoesBack(on, did, undid, n);
    if on[n] {
      var k: nat :| Since(did, undid, k, n);
      forall j | k < j < n ensures !Cleans(ss[j], steps[j], i) {
        assert !undid[j];
      }
      assert EndedAt(ss, steps, k, n, i, status);
    }
    if k: nat :| EndedAt(ss, steps, k, n, i, status) {
      assert Since(did, undid, k, n);
    }
  }

  ghost predicate Absent(s: State, i: Id) {
    i < s.nextId && i !in s.rows
  }

  lemma StepLeaves(ss: seq<State>, steps: seq<Step>, k: nat, i: Id)
    requires Run(ss, steps) && k < |steps|
    ensures Absent(ss[k + 1], i) <==> Absent(ss[k], i) || Cleans(ss[k], steps[k], i)
  {
    assert Next(ss[k], steps[k], ss[k + 1]);
    AlwaysInv(ss, steps, k);
    if i in ss[k].rows {
      assert RowOk(ss[k], i);
      RunStepOnRow(ss, steps, k, i);
      StepOnRow(ss[k], steps[k], ss[k + 1], i);
    }
  }

  /** A row that was enqueued is missing if and only if cleanup took it after it had ended: no delivery is dropped. */
  lemma AbsentIff(ss: seq<State>, steps: seq<Step>, n: nat, i: Id)
    requires Run(ss, steps) && n <= |steps|
    ensures Absent(ss[n], i) <==> exists k: nat :: k < n && Cleans(ss[k], steps[k], i)
  {
    var on := seq(|ss|, k requires 0 <= k < |ss| => Absent(ss[k], i));
    var did := seq(|steps|, k requires 0 <= k < |steps| => Cleans(ss[k], steps[k], i));
    var undid := seq(|steps|, k requires 0 <= k < |steps| => false);
    forall k | 0 <= k < |steps| ensures on[k + 1] <==> (on[k] && !undid[k]) || did[k] {
      StepLeaves(ss, steps, k, i);
    }
    GoesBack(on, did, undid, n);
    if on[n] {
      var k: nat :| Since(did, undid, k, n);
      assert k < n && Cleans(ss[k], steps[k], i);
    }
    if k: nat :| k < n && Cleans(ss[k], steps[k], i) {
      assert Since(did, undid, k, n);
    }
  }

  // ---- termination ---------------------------------------------------------

  /** The attempts still open: one for each pending row and each number it has not used. */
  ghost function Budget(rows: Rows): set<(Id, nat)> {
    set i, k: nat | i in rows && k < MAX_ATTEMPTS && rows[i].status == Pending && rows[i].attempts <= k :: (i, k)
  }

  lemma BudgetShrinks(s: State, step: Step, s': State)
    requires Next(s, step, s') && !step.Enqueue?
    requires forall i :: i in s.inflight ==> FlightOk(s, i)
    ensures Budget(s'.rows) <= Budget(s.rows)
  {
    forall i, k: nat | (i, k) in Budget(s'.rows) ensures (i, k) in Budget(s.rows) {
      assert i in s.inflight ==> FlightOk(s, i);
    }
  }

  lemma AttemptIsSpent(s: State, step: Step, s': State)
    requires Next(s, step, s') && (step.Skip? || step.Mark?)
    requires FlightOk(s, step.id) && s.rows[step.id].attempts < MAX_ATTEMPTS
    ensures (step.id, s.rows[step.id].attempts) in Budget(s.rows)
    ensures (step.id, s.rows[step.id].attempts) !in Budget(s'.rows)
  {
  }

  ghost function Finished(steps: seq<Step>): nat {
    if steps == [] then 0
    else Finished(steps[..|steps| - 1]) + if steps[|steps| - 1].Skip? || steps[|steps| - 1].Mark? then 1 else 0
  }

  lemma FinishedStep(steps: seq<Step>, m: nat, n: nat)
    requires m < n <= |steps|
    ensures Finished(steps[m..n])
         == Finished(steps[m..n - 1]) + if steps[n - 1].Skip? || steps[n - 1].Mark? then 1 else 0
  {
    assert steps[m..n][..n - m - 1] == steps[m..n - 1];
  }

  lemma StepSpends(s: State, step: Step, s': State)
    requires Inv(s) && Next(s, step, s') && !step.Enqueue?
    ensures |Budget(s'.rows)| + (if step.Skip? || step.Mark? then 1 else 0) <= |Budget(s.rows)|
  {
    BudgetShrinks(s, step, s');
    SubsetSize(Budget(s'.rows), Budget(s.rows));
    if step.Skip? || step.Mark? {
      assert FlightOk(s, step.id) && RowOk(s, step.id);
      AttemptIsSpent(s, step, s');
    }
  }

  /** Once nothing new is enqueued, the number of attempts still to come is bounded by the budget. */
  lemma {:induction false} AttemptsAreBounded(ss: seq<State>, steps: seq<Step>, m: nat, n: nat)
    requires Run(ss, steps) && m <= n < |ss|
    requires forall i :: m <= i < n ==> !steps[i].Enqueue?
    ensures |Budget(ss[n].rows)| + Finished(steps[m..n]) <= |Budget(ss[m].rows)|
  {
    if m < n {
      AttemptsAreBounded(ss, steps, m, n - 1);
      AlwaysInv(ss, steps, n - 1);
      StepSpends(ss[n - 1], steps[n - 1], ss[n]);
      FinishedStep(steps, m, n);
    }
  }
}

/**
 The `actors` and `follow_requests` tables: one row per remote actor with both
 directions of the relationship, each SQL statement as one method.
 */
module Actors {
  import opened Base

  datatype Status = Pending | Accepted | Rejected

  /** The relationship columns of an actor row. */
  datatype Row = Row(theyFollowUs: bool, theyFollowUsAt: Option<Time>,
                     weFollowThem: bool, status: Option<Status>, acceptAt: Option<Time>, created: Time)

  function Fresh(now: Time): Row {
    Row(false, None, false, None, None, now)
  }

  predicate Follower(r: Option<Row>) {
    r.Some? && r.value.theyFollowUs
  }

  /** HasPendingOutgoingFollow on the result of GetOutgoingFollow. */
  predicate HasPending(r: Option<Row>) {
    r.Some? && r.value.weFollowThem && r.value.status == Some(Pending)
  }

  predicate HasAccepted(r: Option<Row>) {
    r.Some? && r.value.weFollowThem && r.value.status == Some(Accepted)
  }

  // ---- one row -------------------------------------------------------------

  function Requested(r: Option<Row>, now: Time): Row {
    if r.None? then Row(false, None, true, Some(Pending), None, now)
    else if r.value.status == Some(Accepted) then r.value.(weFollowThem := true)
    else r.value.(weFollowThem := true, status := Some(Pending), acceptAt := None, created := now)
  }

  function Promoted(r: Option<Row>, now: Time): Row {
    (if r.None? then Fresh(now) else r.value).(theyFollowUs := true, theyFollowUsAt := Some(now))
  }

  /** AcceptOutgoingFollow and RejectOutgoingFollow on a pending row. */
  function AcceptedRow(r: Row, now: Time): Row {
    r.(status := Some(Accepted), acceptAt := Some(now))
  }

  function RejectedRow(r: Row, now: Time): Row {
    r.(status := Some(Rejected), created := now)
  }

  function Coalesce<T>(a: Option<T>, b: Option<T>): Option<T> {
    if a.Some? then a else b
  }

  /** UpsertActor's merge of the relationship columns of `excluded` into an existing row. */
  function Merged(r: Option<Row>, excluded: Row): Row {
    if r.None? then excluded
    else Row(excluded.theyFollowUs || r.value.theyFollowUs,
             Coalesce(excluded.theyFollowUsAt, r.value.theyFollowUsAt),
             excluded.weFollowThem || r.value.weFollowThem,
             Coalesce(excluded.status, r.value.status),
             Coalesce(excluded.acceptAt, r.value.acceptAt),
             r.value.created)
  }

  predicate Stale(r: Row, pendingCutoff: Time, rejectedCutoff: Time) {
    && r.weFollowThem
    && ((r.status == Some(Pending) && r.created < pendingCutoff)
        || (r.status == Some(Rejected) && r.created < rejectedCutoff))
  }

  function Cleared(r: Row): Row {
    r.(weFollowThem := false, status := None, acceptAt := None)
  }

  // ---- the table -----------------------------------------------------------

  datatype Op =
    | AddOutgoing(a: Actor)
    | AcceptOutgoing(a: Actor)  // on an Accept(Follow) from `a`
    | RejectOutgoing(a: Actor)
    | RemoveOutgoing(a: Actor)
    | DeleteStale(pendingCutoff: Time, rejectedCutoff: Time)
    | UpsertPlain(a: Actor)     // the trailing UpsertActor of AddFollow, without relationship columns
    | AddFollow(a: Actor)
    | RemoveFollow(a: Actor)
    | DeleteActor(a: Actor)

  type Rows = map<Actor, Row>

  function Lookup(rows: Rows, a: Actor): Option<Row> {
    if a in rows then Some(rows[a]) else None
  }

  function Apply(rows: Rows, op: Op, now: Time): Rows {
    match op
    case AddOutgoing(a) => rows[a := Requested(Lookup(rows, a), now)]
    case AcceptOutgoing(a) =>
      if HasPending(Lookup(rows, a)) then rows[a := AcceptedRow(rows[a], now)] else rows
    case RejectOutgoing(a) =>
      if HasPending(Lookup(rows, a)) then rows[a := RejectedRow(rows[a], now)] else rows
    case RemoveOutgoing(a) => if a in rows && rows[a].weFollowThem then rows[a := Cleared(rows[a])] else rows
    case DeleteStale(p, r) => map a | a in rows :: if Stale(rows[a], p, r) then Cleared(rows[a]) else rows[a]
    case UpsertPlain(a) => rows[a := Merged(Lookup(rows, a), Fresh(now))]
    case AddFollow(a) => rows[a := Promoted(Lookup(rows, a), now)]
    case RemoveFollow(a) =>
      if Follower(Lookup(rows, a)) then rows[a := rows[a].(theyFollowUs := false, theyFollowUsAt := None)] else rows
    case DeleteActor(a) => rows - {a}
  }

  /** Following means having a status, and an acceptance time means having been accepted. */
  predicate Consistent(r: Row) {
    (r.weFollowThem <==> r.status.Some?) && (r.acceptAt.Some? <==> r.status == Some(Accepted))
  }

  ghost predicate AllConsistent(rows: Rows) {
    forall a :: a in rows ==> Consistent(rows[a])
  }

  lemma OpKeepsConsistent(rows: Rows, op: Op, now: Time)
    requires AllConsistent(rows)
    ensures AllConsistent(Apply(rows, op, now))
  {
    forall a | a in Apply(rows, op, now) ensures Consistent(Apply(rows, op, now)[a]) {
      assert a in rows ==> Consistent(rows[a]);
    }
  }

  /** Accepted is entered only from pending by that actor's Accept, and left only by removal. */
  lemma AcceptedChanges(rows: Rows, op: Op, now: Time, a: Actor)
    requires AllConsistent(rows)
    ensures !HasAccepted(Lookup(rows, a)) && HasAccepted(Lookup(Apply(rows, op, now), a)) ==>
              op == AcceptOutgoing(a) && HasPending(Lookup(rows, a))
    ensures HasAccepted(Lookup(rows, a)) && !HasAccepted(Lookup(Apply(rows, op, now), a)) ==>
              op == RemoveOutgoing(a) || op == DeleteActor(a)
  {
    assert a in rows ==> Consistent(rows[a]);
  }

  // ---- what each statement does --------------------------------------------

  /** Every row but that of `a` is as it was. */
  ghost predicate OnlyRow(rows: Rows, rows': Rows, a: Actor) {
    forall b :: b != a ==> (b in rows <==> b in rows') && (b in rows ==> rows'[b] == rows[b])
  }

  /** The other direction of the relationship is as it was. */
  ghost predicate IncomingSame(r: Option<Row>, r': Row) {
    if r.Some? then r'.theyFollowUs == r.value.theyFollowUs && r'.theyFollowUsAt == r.value.theyFollowUsAt
    else !r'.theyFollowUs && r'.theyFollowUsAt == None
  }

  ghost predicate OutgoingSame(r: Option<Row>, r': Row) {
    if r.Some? then r'.weFollowThem == r.value.weFollowThem && r'.status == r.value.status && r'.acceptAt == r.value.acceptAt
    else !r'.weFollowThem && r'.status == None && r'.acceptAt == None
  }

  /** Asking to follow: pending from now on, unless it was accepted before. */
  lemma AddOutgoingAsks(rows: Rows, a: Actor, now: Time)
    ensures var after := Apply(rows, AddOutgoing(a), now);
            && OnlyRow(rows, after, a) && a in after && after[a].weFollowThem && IncomingSame(Lookup(rows, a), after[a])
            && (if a in rows && rows[a].status == Some(Accepted)
                then after[a].status == Some(Accepted) && after[a].acceptAt == rows[a].acceptAt && after[a].created == rows[a].created
                else after[a].status == Some(Pending) && after[a].acceptAt == None && after[a].created == now)
  {
  }

  /** An Accept turns a pending follow into an accepted one, dated now, and touches nothing else. */
  lemma AcceptAccepts(rows: Rows, a: Actor, now: Time)
    ensures var after := Apply(rows, AcceptOutgoing(a), now);
            if a in rows && rows[a].weFollowThem && rows[a].status == Some(Pending)
            then && OnlyRow(rows, after, a) && a in after && IncomingSame(Some(rows[a]), after[a])
                 && after[a].weFollowThem && after[a].status == Some(Accepted) && after[a].acceptAt == Some(now)
                 && after[a].created == rows[a].created
            else after == rows
  {
  }

  /** A Reject turns a pending follow into a rejected one, dated now, and touches nothing else. */
  lemma RejectRejects(rows: Rows, a: Actor, now: Time)
    ensures var after := Apply(rows, RejectOutgoing(a), now);
            if a in rows && rows[a].weFollowThem && rows[a].status == Some(Pending)
            then && OnlyRow(rows, after, a) && a in after && IncomingSame(Some(rows[a]), after[a])
                 && after[a].weFollowThem && after[a].status == Some(Rejected) && after[a].created == now
                 && after[a].acceptAt == rows[a].acceptAt
            else after == rows
  {
  }

  /** A removal leaves no trace of the outgoing follow. */
  lemma RemoveRemoves(rows: Rows, a: Actor, now: Time)
    ensures var after := Apply(rows, RemoveOutgoing(a), now);
            if a in rows && rows[a].weFollowThem
            then && OnlyRow(rows, after, a) && a in after && IncomingSame(Some(rows[a]), after[a])
                 && !after[a].weFollowThem && after[a].status == None && after[a].acceptAt == None
                 && after[a].created == rows[a].created
            else after == rows
  {
  }

  /** Exactly the pending and the rejected follows older than their limits are cleared. */
  lemma StaleAreCleared(rows: Rows, pendingCutoff: Time, rejectedCutoff: Time, now: Time, a: Actor)
    ensures var after := Apply(rows, DeleteStale(pendingCutoff, rejectedCutoff), now);
            && (a in after <==> a in rows)
            && (a in rows ==>
                if rows[a].weFollowThem && ((rows[a].status == Some(Pending) && rows[a].created < pendingCutoff)
                                            || (rows[a].status == Some(Rejected) && rows[a].created < rejectedCutoff))
                then && IncomingSame(Some(rows[a]), after[a]) && after[a].created == rows[a].created
                     && !after[a].weFollowThem && after[a].status == None && after[a].acceptAt == None
                else after[a] == rows[a])
  {
  }

  /** A follower is recorded and removed without touching the outgoing follow. */
  lemma FollowerComesAndGoes(rows: Rows, a: Actor, now: Time)
    ensures var after := Apply(rows, AddFollow(a), now);
            && OnlyRow(rows, after, a) && a in after && OutgoingSame(Lookup(rows, a), after[a])
            && after[a].theyFollowUs && after[a].theyFollowUsAt == Some(now)
            && (a in rows ==> after[a].created == rows[a].created) && (a !in rows ==> after[a].created == now)
    ensures var after := Apply(rows, RemoveFollow(a), now);
            if a in rows && rows[a].theyFollowUs
            then && OnlyRow(rows, after, a) && a in after && OutgoingSame(Some(rows[a]), after[a])
                 && !after[a].theyFollowUs && after[a].theyFollowUsAt == None && after[a].created == rows[a].created
            else after == rows
    ensures var after := Apply(rows, DeleteActor(a), now);
            OnlyRow(rows, after, a) && a !in after
  {
  }

  // ---- runs ----------------------------------------------------------------

  ghost predicate Run(tables: seq<Rows>, ops: seq<Op>, times: seq<Time>) {
    && |tables| == |ops| + 1 && |times| == |ops|
    && forall i :: 0 <= i < |ops| ==> tables[i + 1] == Apply(tables[i], ops[i], times[i])
  }

  lemma {:induction false} RunIsConsistent(tables: seq<Rows>, ops: seq<Op>, times: seq<Time>, n: nat)
    requires Run(tables, ops, times) && n < |tables| && AllConsistent(tables[0])
    ensures AllConsistent(tables[n])
  {
    if n == 0 {
    } else {
      RunIsConsistent(tables, ops, times, n - 1);
      OpKeepsConsistent(tables[n - 1], ops[n - 1], times[n - 1]);
    }
  }

  /** Step `k` accepts the pending follow of `a`, and nothing up to `n` removes it. */
  ghost predicate AcceptedAt(tables: seq<Rows>, ops: seq<Op>, a: Actor, k: nat, n: nat)
    requires |tables| == |ops| + 1 && n <= |ops|
  {
    && k < n && ops[k] == AcceptOutgoing(a) && HasPending(Lookup(tables[k], a))
    && forall i :: k < i < n ==> ops[i] != RemoveOutgoing(a) && ops[i] != DeleteActor(a)
  }

  /**
   In every run from a table where `a` was not accepted: an accepted outgoing follow goes
   back to one Accept of that actor for a pending follow, with no removal since.
   */
  lemma {:induction false} AcceptedHasCause(tables: seq<Rows>, ops: seq<Op>, times: seq<Time>, a: Actor, n: nat)
    returns (k: nat)
    requires Run(tables, ops, times) && n < |tables| && AllConsistent(tables[0])
    requires !HasAccepted(Lookup(tables[0], a)) && HasAccepted(Lookup(tables[n], a))
    ensures AcceptedAt(tables, ops, a, k, n)
  {
    RunIsConsistent(tables, ops, times, n - 1);
    AcceptedChanges(tables[n - 1], ops[n - 1], times[n - 1], a);
    if HasAccepted(Lookup(tables[n - 1], a)) {
      k := AcceptedHasCause(tables, ops, times, a, n - 1);
      assert ops[n - 1] != RemoveOutgoing(a) && ops[n - 1] != DeleteActor(a) by {
        assert tables[n] == Apply(tables[n - 1], ops[n - 1], times[n - 1]);
      }
    } else {
      k := n - 1;
    }
  }

  lemma StepAccepted(rows: Rows, op: Op, now: Time, a: Actor)
    requires AllConsistent(rows)
    ensures HasAccepted(Lookup(Apply(rows, op, now), a)) <==>
              || (HasAccepted(Lookup(rows, a)) && op != RemoveOutgoing(a) && op != DeleteActor(a))
              || (op == AcceptOutgoing(a) && HasPending(Lookup(rows, a)))
  {
    assert a in rows ==> Consistent(rows[a]);
    AcceptedChanges(rows, op, now, a);
  }

  /** In every run from a table where `a` was not accepted: accepted if and only if accepted once and not removed since. */
  lemma AcceptedIff(tables: seq<Rows>, ops: seq<Op>, times: seq<Time>, a: Actor, n: nat)
    requires Run(tables, ops, times) && n < |tables| && AllConsistent(tables[0]) && !HasAccepted(Lookup(tables[0], a))
    ensures HasAccepted(Lookup(tables[n], a)) <==> exists k :: AcceptedAt(tables, ops, a, k, n)
  {
    var on := seq(|tables|, i requires 0 <= i < |tables| => HasAccepted(Lookup(tables[i], a)));
    var did := seq(|ops|, i requires 0 <= i < |ops| => ops[i] == AcceptOutgoing(a) && HasPending(Lookup(tables[i], a)));
    var undid := seq(|ops|, i requires 0 <= i < |ops| => ops[i] == RemoveOutgoing(a) || ops[i] == DeleteActor(a));
    forall i | 0 <= i < |ops| ensures on[i + 1] <==> (on[i] && !undid[i]) || did[i] {
      RunIsConsistent(tables, ops, times, i);
      StepAccepted(tables[i], ops[i], times[i], a);
    }
    GoesBack(on, did, undid, n);
    if on[n] {
      var k: nat :| Since(did, undid, k, n);
      forall j | k < j < n ensures ops[j] != RemoveOutgoing(a) && ops[j] != DeleteActor(a) {
        assert !undid[j];
      }
      assert AcceptedAt(tables, ops, a, k, n);
    }
    if k: nat :| AcceptedAt(tables, ops, a, k, n) {
      assert Since(did, undid, k, n);
    }
  }

  predicate HasRejected(r: Option<Row>) {
    r.Some? && r.value.weFollowThem && r.value.status == Some(Rejected)
  }

  /** The operation ends a rejected follow: asked again, removed, or swept when it is old enough. */
  ghost predicate EndsRejected(rows: Rows, op: Op, a: Actor) {
    || op == AddOutgoing(a) || op == RemoveOutgoing(a) || op == DeleteActor(a)
    || (op.DeleteStale? && a in rows && rows[a].created < op.rejectedCutoff)
  }

  lemma StepRejected(rows: Rows, op: Op, now: Time, a: Actor)
    requires AllConsistent(rows)
    ensures HasRejected(Lookup(Apply(rows, op, now), a)) <==>
              || (HasRejected(Lookup(rows, a)) && !EndsRejected(rows, op, a))
              || (op == RejectOutgoing(a) && HasPending(Lookup(rows, a)))
  {
    assert a in rows ==> Consistent(rows[a]);
  }

  /** Step `k` rejects the pending follow of `a`, and nothing up to `n` ends that. */
  ghost predicate RejectedAt(tables: seq<Rows>, ops: seq<Op>, a: Actor, k: nat, n: nat)
    requires |tables| == |ops| + 1 && n <= |ops|
  {
    && k < n && ops[k] == RejectOutgoing(a) && HasPending(Lookup(tables[k], a))
    && forall i :: k < i < n ==> !EndsRejected(tables[i], ops[i], a)
  }

  lemma RejectedIff(tables: seq<Rows>, ops: seq<Op>, times: seq<Time>, a: Actor, n: nat)
    requires Run(tables, ops, times) && n < |tables| && AllConsistent(tables[0]) && !HasRejected(Lookup(tables[0], a))
    ensures HasRejected(Lookup(tables[n], a)) <==> exists k :: RejectedAt(tables, ops, a, k, n)
  {
    var on := seq(|tables|, i requires 0 <= i < |tables| => HasRejected(Lookup(tables[i], a)));
    var did := seq(|ops|, i requires 0 <= i < |ops| => ops[i] == RejectOutgoing(a) && HasPending(Lookup(tables[i], a)));
    var undid := seq(|ops|, i requires 0 <= i < |ops| => EndsRejected(tables[i], ops[i], a));
    forall i | 0 <= i < |ops| ensures on[i + 1] <==> (on[i] && !undid[i]) || did[i] {
      RunIsConsistent(tables, ops, times, i);
      StepRejected(tables[i], ops[i], times[i], a);
    }
    GoesBack(on, did, undid, n);
    if on[n] {
      var k: nat :| Since(did, undid, k, n);
      forall j | k < j < n ensures !EndsRejected(tables[j], ops[j], a) {
        assert !undid[j];
      }
      assert RejectedAt(tables, ops, a, k, n);
    }
    if k: nat :| RejectedAt(tables, ops, a, k, n) {
      assert Since(did, undid, k, n);
    }
  }

  /** AddFollow's trailing upsert leaves the outgoing follow as it is, accepted or not. */
  lemma UpsertKeepsFollow(rows: Rows, now: Time, a: Actor, b: Actor)
    requires a in rows
    ensures var after := Apply(rows, UpsertPlain(b), now);
            && a in after && after[a] == rows[a]
            && (b !in rows ==> b in after && IncomingSame(None, after[b]) && OutgoingSame(None, after[b]) && after[b].created == now)
  {
  }

  class ActorTable {
    var rows: Rows
    var requests: set<Actor>

    constructor ()
      ensures rows == map[] && requests == {}
    {
      rows, requests := map[], {};
    }

    method AddOutgoingFollow(a: Actor, now: Time)
      modifies this`rows
      ensures rows == Apply(old(rows), AddOutgoing(a), now)
    {
      if a !in rows {
        rows := rows[a := Row(false, None, true, Some(Pending), None, now)];
      } else {
        var r := rows[a];
        var accepted := r.status == Some(Accepted);
        rows := rows[a := r.(weFollowThem := true,
                             status := if accepted then Some(Accepted) else Some(Pending),
                             acceptAt := if accepted then r.acceptAt else None,
                             created := if accepted then r.created else now)];
      }
    }

    /** The number of rows affected tells the caller whether there was a pending follow. */
    method AcceptOutgoingFollow(a: Actor, now: Time) returns (ok: bool)
      modifies this`rows
      ensures rows == Apply(old(rows), AcceptOutgoing(a), now)
      ensures ok <==> a in old(rows) && old(rows)[a].weFollowThem && old(rows)[a].status == Some(Pending)
      ensures ok ==> a in rows && rows[a].status == Some(Accepted) && rows[a].acceptAt == Some(now) && OnlyRow(old(rows), rows, a)
      ensures !ok ==> rows == old(rows)
    {
      ok := a in rows && rows[a].weFollowThem && rows[a].status == Some(Pending);
      if ok {
        rows := rows[a := rows[a].(status := Some(Accepted), acceptAt := Some(now))];
      }
    }

    method RejectOutgoingFollow(a: Actor, now: Time)
      modifies this`rows
      ensures rows == Apply(old(rows), RejectOutgoing(a), now)
      ensures a in old(rows) && old(rows)[a].weFollowThem && old(rows)[a].status == Some(Pending) ==>
                a in rows && rows[a].status == Some(Rejected) && rows[a].created == now && OnlyRow(old(rows), rows, a)
      ensures !(a in old(rows) && old(rows)[a].weFollowThem && old(rows)[a].status == Some(Pending)) ==> rows == old(rows)
    {
      if a in rows && rows[a].weFollowThem && rows[a].status == Some(Pending) {
        rows := rows[a := rows[a].(status := Some(Rejected), created := now)];
      }
    }

    method RemoveOutgoingFollow(a: Actor) returns (ok: bool)
      modifies this`rows
      ensures forall now :: rows == Apply(old(rows), RemoveOutgoing(a), now)
      ensures ok <==> a in old(rows) && old(rows)[a].weFollowThem
      ensures ok ==> a in rows && !rows[a].weFollowThem && rows[a].status == None && rows[a].acceptAt == None && OnlyRow(old(rows), rows, a)
      ensures !ok ==> rows == old(rows)
    {
      ok := a in rows && rows[a].weFollowThem;
      if ok {
        rows := rows[a := rows[a].(weFollowThem := false, status := None, acceptAt := None)];
      }
    }

    method DeleteStaleOutgoingFollows(pendingCutoff: Time, rejectedCutoff: Time)
      modifies this`rows
      ensures forall now :: rows == Apply(old(rows), DeleteStale(pendingCutoff, rejectedCutoff), now)
    {
      var todo := rows.Keys;
      ghost var rows0 := rows;
      while todo != {}
        invariant todo <= rows0.Keys && rows.Keys == rows0.Keys
        invariant forall a :: a in rows0 ==>
                    rows[a] == if a !in todo && Stale(rows0[a], pendingCutoff, rejectedCutoff) then Cleared(rows0[a]) else rows0[a]
        decreases |todo|
      {
        var a :| a in todo;
        todo := todo - {a};
        if Stale(rows[a], pendingCutoff, rejectedCutoff) {
          rows := rows[a := Cleared(rows[a])];
        }
      }
    }

    method AddFollowRequest(a: Actor)
      modifies this`requests
      ensures requests == old(requests) + {a}
    {
      requests := requests + {a};
    }

    /** GetFollowRequest, the first half of AcceptFollowRequest. */
    method GetFollowRequest(a: Actor) returns (found: bool)
      ensures found <==> a in requests
    {
      found := a in requests;
    }

    /** The transaction of AcceptFollowRequest: it promotes and deletes the request, also one withdrawn since it was read. */
    method PromoteFollower(a: Actor, now: Time)
      modifies this
      ensures rows == Apply(old(rows), AddFollow(a), now) && requests == old(requests) - {a}
    {
      var r := if a in rows then rows[a] else Fresh(now);
      rows := rows[a := r.(theyFollowUs := true, theyFollowUsAt := Some(now))];
      requests := requests - {a};
    }
  }
}

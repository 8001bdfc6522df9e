/**
 Fan-out of an activity to the followers (section 7.1.3 of the W3C ActivityPub
 Recommendation: shared inboxes). Followers are read page by page while others follow and
 unfollow, so each page sees a table of its own.
 */
module FanOut {
  import opened Base
  import opened Keyset
  import opened Delivery

  const FOLLOWER_BATCH: nat := 100

  /** What the publisher looks at in a follower's row. */
  datatype Follower = Follower(actor: Actor, tagGlobs: Option<nat>)

  /** The rows with they_follow_us set, by row id. */
  type Followers = map<Key, Follower>

  /** Follower `id` was read by query number `query`. */
  datatype Read = Read(id: Key, query: nat)

  /** What the world answers during one call. */
  datatype World = World(
    followers: nat -> Followers,       // the table as the n-th page query finds it
    listOk: nat -> bool,               // whether that query succeeds
    accepts: Follower -> bool,         // actorAcceptsActivity for this activity
    inbox: Read -> Option<Key>,        // resolveInbox for that follower then: shared inbox, own inbox, or failure
    enqueueOk: Key -> bool)

  predicate Present(w: World, r: Read) {
    r.id in w.followers(r.query)
  }

  /** Follower r was told about the activity at inbox x. */
  predicate Selects(w: World, r: Read, x: Key) {
    Present(w, r) && w.accepts(w.followers(r.query)[r.id]) && w.inbox(r) == Some(x)
  }

  predicate Wanted(w: World, log: seq<Read>, x: Key) {
    exists i :: 0 <= i < |log| && Selects(w, log[i], x)
  }

  predicate WasRead(log: seq<Read>, id: Key) {
    exists i :: 0 <= i < |log| && log[i].id == id
  }

  /** Every read is of a follower of that moment, and ids strictly ascend, so none is read twice. */
  predicate Faithful(w: World, log: seq<Read>, queries: nat) {
    && (forall i :: 0 <= i < |log| ==> log[i].query < queries && Present(w, log[i]))
    && (forall i, j :: 0 <= i < j < |log| ==> log[i].id < log[j].id)
  }

  ghost predicate Throughout(w: World, queries: nat, id: Key) {
    forall q :: 0 <= q < queries ==> id in w.followers(q)
  }

  function ReadsOf(batch: seq<nat>, query: nat): (rs: seq<Read>)
    requires forall i :: 0 <= i < |batch| ==> 0 < batch[i]
    ensures |rs| == |batch| && forall i :: 0 <= i < |rs| ==> rs[i] == Read(batch[i], query)
  {
    seq(|batch|, i requires 0 <= i < |batch| => Read(batch[i], query))
  }

  /** ListFollowsBatch */
  function PageOf(w: World, q: nat, after: nat, limit: nat): (p: seq<nat>)
    ensures |p| <= limit
    ensures forall i :: 0 <= i < |p| ==> p[i] in w.followers(q) && after < p[i]
    ensures forall i, j :: 0 <= i < j < |p| ==> p[i] < p[j]
  {
    var p := Page(w.followers(q).Keys, after, limit);
    PageIsSound(w.followers(q).Keys, after, limit);
    assert forall i :: 0 <= i < |p| ==> p[i] in p;
    p
  }

  /** What a page query returned, as reads. */
  function PageReads(w: World, q: nat, after: nat, limit: nat): seq<Read> {
    ReadsOf(PageOf(w, q, after, limit), q)
  }

  /** Everyone up to the cursor who has been there since the first query was read. */
  ghost predicate Covered(w: World, log: seq<Read>, queries: nat, upTo: nat) {
    forall id: Key :: id <= upTo && Throughout(w, queries, id) ==> WasRead(log, id)
  }

  ghost predicate Within(log: seq<Read>, after: nat) {
    forall i :: 0 <= i < |log| ==> log[i].id <= after
  }

  lemma PageIsFaithful(w: World, log: seq<Read>, q: nat, after: nat, limit: nat)
    requires Faithful(w, log, q) && Within(log, after)
    ensures Faithful(w, log + PageReads(w, q, after, limit), q + 1)
    ensures var p := PageOf(w, q, after, limit); p != [] ==> Within(log + PageReads(w, q, after, limit), p[|p| - 1])
  {
  }

  lemma ReadInEither(log: seq<Read>, more: seq<Read>, id: Key)
    requires WasRead(log, id) || WasRead(more, id)
    ensures WasRead(log + more, id)
  {
    var all := log + more;
    if i :| 0 <= i < |log| && log[i].id == id {
      assert all[i].id == id;
    } else {
      var i :| 0 <= i < |more| && more[i].id == id;
      assert all[|log| + i].id == id;
    }
  }

  lemma PageHolds(w: World, q: nat, after: nat, limit: nat, id: Key)
    requires id in w.followers(q) && after < id
    requires var p := PageOf(w, q, after, limit); |p| < limit || (p != [] && id <= p[|p| - 1])
    ensures WasRead(PageReads(w, q, after, limit), id)
  {
    var p := PageOf(w, q, after, limit);
    PageIsComplete(w.followers(q).Keys, after, limit, id);
    var i :| 0 <= i < |p| && p[i] == id;
    assert PageReads(w, q, after, limit)[i].id == id;
  }

  /** One page leaves out no follower up to its end; a short one, none at all. */
  lemma PageCovers(w: World, log: seq<Read>, q: nat, after: nat, limit: nat, upTo: nat)
    requires Covered(w, log, q, after)
    requires var p := PageOf(w, q, after, limit); |p| < limit || (p != [] && upTo <= p[|p| - 1])
    ensures Covered(w, log + PageReads(w, q, after, limit), q + 1, upTo)
  {
    forall id: Key | id <= upTo && Throughout(w, q + 1, id) ensures WasRead(log + PageReads(w, q, after, limit), id) {
      assert id in w.followers(q);
      if id <= after {
        assert Throughout(w, q, id);
      } else {
        PageHolds(w, q, after, limit, id);
      }
      ReadInEither(log, PageReads(w, q, after, limit), id);
    }
  }

  lemma WantedGrows(w: World, log: seq<Read>, r: Read)
    ensures forall x :: Wanted(w, log + [r], x) <==> Wanted(w, log, x) || Selects(w, r, x)
  {
    var all := log + [r];
    forall x ensures Wanted(w, all, x) <==> Wanted(w, log, x) || Selects(w, r, x) {
      if i :| 0 <= i < |log| && Selects(w, log[i], x) {
        assert Selects(w, all[i], x);
      }
      assert all[|log|] == r;
    }
  }

  /** The goroutines of one page; they only add to the set of inboxes. */
  method AddPage(w: World, batch: seq<nat>, query: nat, was: set<Key>, ghost log: seq<Read>) returns (inboxes: set<Key>)
    requires forall i :: 0 <= i < |batch| ==> 0 < batch[i]
    requires forall i :: 0 <= i < |batch| ==> batch[i] in w.followers(query)
    requires forall x :: x in was <==> Wanted(w, log, x)
    ensures forall x :: x in inboxes <==> Wanted(w, log + ReadsOf(batch, query), x)
  {
    inboxes := was;
    assert log + ReadsOf(batch, query)[..0] == log;
    for i := 0 to |batch|
      invariant forall x :: x in inboxes <==> Wanted(w, log + ReadsOf(batch, query)[..i], x)
    {
      var f := w.followers(query)[batch[i]];
      ghost var done := log + ReadsOf(batch, query)[..i];
      ghost var r := Read(batch[i], query);
      WantedGrows(w, done, r);
      assert done + [r] == log + ReadsOf(batch, query)[..i + 1];
      if w.accepts(f) {
        var inbox := w.inbox(Read(batch[i], query));
        if inbox.Some? {
          inboxes := inboxes + {inbox.value};
        }
      }
    }
    assert ReadsOf(batch, query)[..|batch|] == ReadsOf(batch, query);
  }

  /**
   The scan of enqueueToFollowers. Every follower present throughout is read exactly once,
   and the inboxes are those of the followers read that accept the activity and resolve.
   `bound` is the largest row id in use while the scan runs, `limit` the page size.
   */
  method CollectInboxes(w: World, bound: nat, limit: nat) returns (ok: bool, inboxes: set<Key>, ghost log: seq<Read>, queries: nat)
    requires 0 < limit && forall q, id :: id in w.followers(q) ==> id <= bound
    ensures Faithful(w, log, queries)
    ensures ok ==> 0 < queries && Covered(w, log, queries, bound)
    ensures forall x :: x in inboxes <==> Wanted(w, log, x)
    ensures ok <==> forall q :: 0 <= q < queries ==> w.listOk(q)
  {
    inboxes, log, queries := {}, [], 0;
    var after := 0;
    while true
      invariant after <= bound
      invariant Faithful(w, log, queries) && Within(log, after) && Covered(w, log, queries, after)
      invariant forall x :: x in inboxes <==> Wanted(w, log, x)
      invariant forall q :: 0 <= q < queries ==> w.listOk(q)
      decreases bound - after
    {
      if !w.listOk(queries) {
        queries := queries + 1;
        return false, inboxes, log, queries;
      }
      var batch := PageOf(w, queries, after, limit);
      PageIsFaithful(w, log, queries, after, limit);
      PageCovers(w, log, queries, after, limit, if |batch| < limit then bound else batch[|batch| - 1]);
      inboxes := AddPage(w, batch, queries, inboxes, log);
      log := log + PageReads(w, queries, after, limit);
      queries := queries + 1;
      if |batch| < limit { // an empty page included
        return true, inboxes, log, queries;
      }
      after := batch[|batch| - 1];
    }
  }

  // ---- the delivery rows ---------------------------------------------------

  /** UNIQUE (activity_id, inbox_url), and ids are handed out once. */
  ghost predicate Unique(rows: Rows, nextId: Id) {
    && (forall i :: i in rows ==> i < nextId)
    && (forall i, j :: i in rows && j in rows && rows[i].activity == rows[j].activity && rows[i].inbox == rows[j].inbox ==> i == j)
  }

  /** Old rows are kept, and every new row is a pending first attempt of this activity to one of the inboxes. */
  ghost predicate OnlyAdds(was: Rows, rows: Rows, activity: Key, inboxes: set<Key>, now: Time) {
    && (forall i :: i in was ==> i in rows && rows[i] == was[i])
    && (forall i :: i in rows && i !in was ==>
          rows[i].inbox in inboxes && rows[i] == Row(activity, rows[i].inbox, Pending, 0, MAX_ATTEMPTS, now, now))
  }

  lemma InsertAdds(was: Rows, rows: Rows, next: Id, activity: Key, inbox: Key, inboxes: set<Key>, now: Time)
    requires Unique(rows, next) && OnlyAdds(was, rows, activity, inboxes, now)
    requires inbox in inboxes && !Queued(rows, activity, inbox)
    ensures var rows' := rows[next := Row(activity, inbox, Pending, 0, MAX_ATTEMPTS, now, now)];
            && Unique(rows', next + 1) && OnlyAdds(was, rows', activity, inboxes, now) && rows' != was
            && Queued(rows', activity, inbox)
            && (forall x :: x != inbox && !Queued(rows, activity, x) ==> !Queued(rows', activity, x))
  {
    var rows' := rows[next := Row(activity, inbox, Pending, 0, MAX_ATTEMPTS, now, now)];
    assert next in rows' && next !in was;
  }

  lemma QueuedGrows(was: Rows, rows: Rows, activity: Key)
    requires forall i :: i in was ==> i in rows && rows[i] == was[i]
    ensures forall x :: Queued(was, activity, x) ==> Queued(rows, activity, x)
  {
    forall x | Queued(was, activity, x) ensures Queued(rows, activity, x) {
      var i :| i in was && was[i].activity == activity && was[i].inbox == x;
      assert i in rows && rows[i].activity == activity && rows[i].inbox == x;
    }
  }

  /**
   The enqueue loop. Afterwards there is exactly one row of the activity for each inbox whose
   enqueue succeeded, and `queuedNew` tells whether any of them is new.
   */
  method EnqueueAll(table: DeliveryTable, w: World, activity: Key, inboxes: set<Key>, now: Time) returns (queuedNew: bool)
    requires Unique(table.rows, table.nextId)
    modifies table
    ensures Unique(table.rows, table.nextId)
    ensures OnlyAdds(old(table.rows), table.rows, activity, inboxes, now)
    ensures forall x :: x in inboxes && w.enqueueOk(x) ==> Queued(table.rows, activity, x)
    ensures forall x :: !w.enqueueOk(x) && !Queued(old(table.rows), activity, x) ==> !Queued(table.rows, activity, x)
    ensures queuedNew <==> table.rows != old(table.rows)
  {
    queuedNew := false;
    var todo := inboxes;
    ghost var was := table.rows;
    while todo != {}
      invariant todo <= inboxes
      invariant Unique(table.rows, table.nextId) && OnlyAdds(was, table.rows, activity, inboxes, now)
      invariant forall x :: x in inboxes - todo && w.enqueueOk(x) ==> Queued(table.rows, activity, x)
      invariant forall x :: !w.enqueueOk(x) && !Queued(was, activity, x) ==> !Queued(table.rows, activity, x)
      invariant queuedNew <==> table.rows != was
    {
      var inbox :| inbox in todo;
      todo := todo - {inbox};
      if w.enqueueOk(inbox) {
        ghost var before, next := table.rows, table.nextId;
        var inserted := table.Enqueue(activity, inbox, now);
        if inserted {
          InsertAdds(was, before, next, activity, inbox, inboxes, now);
          queuedNew := true;
        }
        QueuedGrows(before, table.rows, activity);
      }
    }
  }

  lemma NewRowsAreWanted(was: Rows, rows: Rows, activity: Key, inboxes: set<Key>, now: Time)
    requires OnlyAdds(was, rows, activity, inboxes, now)
    ensures forall x :: Queued(rows, activity, x) ==> Queued(was, activity, x) || x in inboxes
  {
    forall x | Queued(rows, activity, x) ensures Queued(was, activity, x) || x in inboxes {
      var i :| i in rows && rows[i].activity == activity && rows[i].inbox == x;
      assert i in was ==> was[i].activity == activity && was[i].inbox == x;
    }
  }

  /**
   enqueueToFollowers as a whole: a failed listing queues nothing; otherwise the new rows of
   the activity are one for each distinct inbox of the followers read that accept and resolve,
   unless it was queued before or its enqueue failed.
   */
  method EnqueueToFollowers(table: DeliveryTable, w: World, bound: nat, activity: Key, now: Time)
    returns (ok: bool, queuedNew: bool, ghost log: seq<Read>, queries: nat)
    requires Unique(table.rows, table.nextId)
    requires forall q, id :: id in w.followers(q) ==> id <= bound
    modifies table
    ensures Faithful(w, log, queries) && (ok ==> 0 < queries && Covered(w, log, queries, bound))
    ensures Unique(table.rows, table.nextId)
    ensures !ok ==> table.rows == old(table.rows) && !queuedNew
    ensures ok ==> forall x :: Queued(table.rows, activity, x) <==>
                     Queued(old(table.rows), activity, x) || (Wanted(w, log, x) && w.enqueueOk(x))
    ensures forall i :: i in old(table.rows) ==> i in table.rows && table.rows[i] == old(table.rows)[i]
    ensures queuedNew <==> table.rows != old(table.rows)
  {
    var inboxes;
    ok, inboxes, log, queries := CollectInboxes(w, bound, FOLLOWER_BATCH);
    queuedNew := false;
    if ok {
      queuedNew := EnqueueAll(table, w, activity, inboxes, now);
      QueuedGrows(old(table.rows), table.rows, activity);
      NewRowsAreWanted(old(table.rows), table.rows, activity, inboxes, now);
    }
  }
}

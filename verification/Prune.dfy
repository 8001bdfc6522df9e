/**
 PruneUntaggedManifests against tracing. One batch deletes old, untagged manifests
 that nothing in their package points at; a tracing collector would keep exactly what
 is reachable from the tagged and the young ones. Repeating batches reaches the tracing
 answer if and only if no reference cycle sits outside it.
 */
module Prune {
  import opened Base
  import opened Tables

  /** `u` refers to `v`: as an index child or layer row, or as its OCI subject. */
  predicate Edge(db: Db, u: VersionKey, v: VersionKey) {
    && u in db.versions && v in db.versions && u.pkg == v.pkg
    && (db.versions[u].subject == Some(v.digest) || FileRow(u, v.digest) in db.files)
  }

  /** What the prune query never selects, whatever refers to it. */
  predicate Root(db: Db, cutoff: Time, v: VersionKey) {
    && v in db.versions
    && (|| v.pkg !in db.packages || db.packages[v.pkg].kind != Oci
        || cutoff <= db.versions[v].created
        || Tagged(db, v))
  }

  /** The WHERE clause of PruneUntaggedManifests. */
  predicate Prunable(db: Db, cutoff: Time, v: VersionKey) {
    && v in db.versions
    && v.pkg in db.packages && db.packages[v.pkg].kind == Oci
    && db.versions[v].created < cutoff
    && !Tagged(db, v)
    && !exists u :: u in db.versions && Edge(db, u, v)
  }

  // ---- the query, column by column -----------------------------------------

  /** No tag of the package points at the version. */
  ghost predicate Untagged(db: Db, v: VersionKey) {
    forall t :: t in db.tags && t.pkg == v.pkg ==> db.tags[t].version != v.digest
  }

  /** No version of the package lists it in a file row or names it as its subject. */
  ghost predicate Unlisted(db: Db, v: VersionKey) {
    forall u :: u in db.versions && u.pkg == v.pkg ==> FileRow(u, v.digest) !in db.files && db.versions[u].subject != Some(v.digest)
  }

  /** What the query selects, and so what it leaves: tagged, young, listed and named manifests, and other package kinds. */
  lemma PrunableIff(db: Db, cutoff: Time, v: VersionKey)
    ensures Prunable(db, cutoff, v) <==>
              && v in db.versions && v.pkg in db.packages && db.packages[v.pkg].kind == Oci
              && db.versions[v].created < cutoff && Untagged(db, v) && Unlisted(db, v)
  {
    if Untagged(db, v) {
      assert !Tagged(db, v);
    }
    if v in db.versions && Unlisted(db, v) {
      assert !exists u :: u in db.versions && Edge(db, u, v);
    }
    if Prunable(db, cutoff, v) {
      forall t | t in db.tags && t.pkg == v.pkg ensures db.tags[t].version != v.digest {
      }
      forall u | u in db.versions && u.pkg == v.pkg
        ensures FileRow(u, v.digest) !in db.files && db.versions[u].subject != Some(v.digest)
      {
        assert !Edge(db, u, v);
      }
    }
  }

  // ---- tracing -------------------------------------------------------------

  ghost predicate Path(db: Db, p: seq<VersionKey>) {
    && 0 < |p|
    && (forall i :: 0 <= i < |p| ==> p[i] in db.versions)
    && (forall i :: 0 < i < |p| ==> Edge(db, p[i - 1], p[i]))
  }

  ghost predicate Traces(db: Db, cutoff: Time, p: seq<VersionKey>, v: VersionKey) {
    Path(db, p) && Root(db, cutoff, p[0]) && p[|p| - 1] == v
  }

  ghost predicate Live(db: Db, cutoff: Time, v: VersionKey) {
    exists p :: Traces(db, cutoff, p, v)
  }

  lemma LiveStep(db: Db, cutoff: Time, u: VersionKey, v: VersionKey)
    requires Live(db, cutoff, u) && Edge(db, u, v)
    ensures Live(db, cutoff, v)
  {
    var p :| Traces(db, cutoff, p, u);
    assert Traces(db, cutoff, p + [v], v);
  }

  /** Every manifest along a trace is itself live. */
  lemma TraceIsLive(db: Db, cutoff: Time, p: seq<VersionKey>, v: VersionKey, i: nat)
    requires Traces(db, cutoff, p, v) && i < |p|
    ensures Live(db, cutoff, p[i])
  {
    assert Traces(db, cutoff, p[..i + 1], p[i]);
  }

  /** A live manifest is a root or something in its package refers to it. */
  lemma LiveIsHeld(db: Db, cutoff: Time, v: VersionKey)
    requires Live(db, cutoff, v)
    ensures v in db.versions
    ensures Root(db, cutoff, v) || exists u :: u in db.versions && Edge(db, u, v)
  {
    var p :| Traces(db, cutoff, p, v);
    assert 1 < |p| ==> Edge(db, p[|p| - 2], p[|p| - 1]);
  }

  lemma PrunableIsDead(db: Db, cutoff: Time, v: VersionKey)
    requires Prunable(db, cutoff, v)
    ensures !Live(db, cutoff, v)
  {
    if Live(db, cutoff, v) {
      LiveIsHeld(db, cutoff, v);
    }
  }

  // ---- batches -------------------------------------------------------------

  /** One batch, whatever its LIMIT selected. */
  ghost predicate Batch(db: Db, cutoff: Time, gone: set<VersionKey>, after: Db) {
    (forall v :: v in gone ==> Prunable(db, cutoff, v)) && after == DropVersions(db, gone)
  }

  /**
   What a batch keeps: every live manifest with its row and its file rows, the
   liveness of every manifest, and no survivor's reference to what it deleted.
   */
  lemma BatchKeeps(db: Db, cutoff: Time, gone: set<VersionKey>, after: Db)
    requires Batch(db, cutoff, gone, after)
    ensures forall v :: Live(db, cutoff, v) ==>
              v in after.versions && after.versions[v] == db.versions[v]
    ensures forall v, d :: Live(db, cutoff, v) ==> (FileRow(v, d) in after.files <==> FileRow(v, d) in db.files)
    ensures forall v :: Live(db, cutoff, v) <==> Live(after, cutoff, v)
    ensures forall u, v :: u in after.versions && Edge(db, u, v) ==> v in after.versions
  {
    forall v | Live(db, cutoff, v) ensures v in after.versions && v !in gone {
      if v in gone { PrunableIsDead(db, cutoff, v); }
      var p :| Traces(db, cutoff, p, v);
    }
    forall v | Live(db, cutoff, v) ensures Live(after, cutoff, v) {
      var p :| Traces(db, cutoff, p, v);
      forall i | 0 <= i < |p| ensures p[i] in after.versions {
        TraceIsLive(db, cutoff, p, v, i);
      }
      assert Traces(after, cutoff, p, v);
    }
    forall v | Live(after, cutoff, v) ensures Live(db, cutoff, v) {
      var p :| Traces(after, cutoff, p, v);
      assert Traces(db, cutoff, p, v);
    }
  }

  // ---- cycles --------------------------------------------------------------

  /** A closed walk of references. */
  ghost predicate Cycle(db: Db, c: seq<VersionKey>) {
    && 0 < |c|
    && (forall i :: 0 <= i < |c| ==> c[i] in db.versions)
    && (forall i :: 0 < i < |c| ==> Edge(db, c[i - 1], c[i]))
    && Edge(db, c[|c| - 1], c[0])
  }

  /** A cycle that tracing would collect. */
  ghost predicate Stranded(db: Db, cutoff: Time, c: seq<VersionKey>) {
    Cycle(db, c) && forall i :: 0 <= i < |c| ==> !Live(db, cutoff, c[i])
  }

  ghost predicate Settled(db: Db, cutoff: Time) {
    forall v :: v in db.versions ==> !Prunable(db, cutoff, v)
  }

  ghost predicate HeldFrom(db: Db, s: set<VersionKey>, v: VersionKey) {
    exists u :: u in s && Edge(db, u, v)
  }

  ghost predicate SelfHeld(db: Db, s: set<VersionKey>) {
    forall v {:trigger HeldFrom(db, s, v)} :: v in s ==> HeldFrom(db, s, v)
  }

  /** Walk `n` references backwards without leaving a self-held set. */
  lemma {:induction false} WalkBack(db: Db, s: set<VersionKey>, start: VersionKey, n: nat) returns (w: seq<VersionKey>)
    requires start in s && SelfHeld(db, s)
    ensures |w| == n + 1 && w[n] == start
    ensures forall i :: 0 <= i <= n ==> w[i] in s
    ensures forall i :: 0 < i <= n ==> Edge(db, w[i - 1], w[i])
    decreases n
  {
    if n == 0 {
      w := [start];
    } else {
      assert HeldFrom(db, s, start);
      var u :| u in s && Edge(db, u, start);
      var rest := WalkBack(db, s, u, n - 1);
      w := rest + [start];
    }
  }

  lemma RepeatExists(w: seq<VersionKey>, s: set<VersionKey>) returns (i: nat, j: nat)
    requires |s| < |w| && forall i :: 0 <= i < |w| ==> w[i] in s
    ensures i < j < |w| && w[i] == w[j]
  {
    if forall i, j :: 0 <= i < j < |w| ==> w[i] != w[j] {
      DistinctFits(w, s);
    }
    i, j :| 0 <= i < j < |w| && w[i] == w[j];
  }

  /** A finite set in which everything is referred to from inside contains a cycle. */
  lemma SelfHeldHasCycle(db: Db, s: set<VersionKey>) returns (c: seq<VersionKey>)
    requires s != {} && SelfHeld(db, s)
    ensures Cycle(db, c) && forall i :: 0 <= i < |c| ==> c[i] in s
  {
    var start :| start in s;
    var w := WalkBack(db, s, start, |s|);
    var i, j := RepeatExists(w, s);
    c := w[i..j];
    assert Edge(db, w[j - 1], w[j]);
    forall k | 0 <= k < |c| ensures c[k] in db.versions {
      assert Edge(db, w[i + k], w[i + k + 1]);
    }
  }

  /** At a fixpoint, whatever is not live is held only by what is not live. */
  lemma DeadIsSelfHeld(db: Db, cutoff: Time, dead: set<VersionKey>)
    requires Settled(db, cutoff)
    requires dead == set u | u in db.versions && !Live(db, cutoff, u)
    ensures SelfHeld(db, dead)
  {
    forall u | u in dead ensures HeldFrom(db, dead, u) {
      if Root(db, cutoff, u) { assert Traces(db, cutoff, [u], u); }
      assert !Prunable(db, cutoff, u);
      var w :| w in db.versions && Edge(db, w, u);
      if Live(db, cutoff, w) { LiveStep(db, cutoff, w, u); }
    }
  }

  /** At a fixpoint, anything left that is not live hides a stranded cycle. */
  lemma DeadHasStrandedCycle(db: Db, cutoff: Time, v: VersionKey) returns (c: seq<VersionKey>)
    requires Settled(db, cutoff)
    requires v in db.versions && !Live(db, cutoff, v)
    ensures Stranded(db, cutoff, c)
  {
    var dead := set u | u in db.versions && !Live(db, cutoff, u);
    assert v in dead;
    DeadIsSelfHeld(db, cutoff, dead);
    c := SelfHeldHasCycle(db, dead);
  }

  /** A cycle keeps itself alive through every batch. */
  lemma CycleSurvives(db: Db, cutoff: Time, gone: set<VersionKey>, after: Db, c: seq<VersionKey>)
    requires Batch(db, cutoff, gone, after) && Cycle(db, c)
    ensures Cycle(after, c)
  {
    forall i | 0 <= i < |c| ensures c[i] !in gone {
      var u := if i == 0 then c[|c| - 1] else c[i - 1];
      assert Edge(db, u, c[i]);
    }
  }

  // ---- whole runs ----------------------------------------------------------

  ghost predicate Batched(db: Db, cutoff: Time, after: Db) {
    exists gone :: Batch(db, cutoff, gone, after)
  }

  /** Any sequence of batches at one cutoff, of any sizes. */
  ghost predicate Run(dbs: seq<Db>, cutoff: Time) {
    0 < |dbs| && forall i :: 0 <= i < |dbs| - 1 ==> Batched(dbs[i], cutoff, dbs[i + 1])
  }

  /** The version has the same row and the same file rows in both snapshots. */
  ghost predicate SameRows(db: Db, after: Db, v: VersionKey) {
    && v in db.versions && v in after.versions && after.versions[v] == db.versions[v]
    && forall d :: FileRow(v, d) in after.files <==> FileRow(v, d) in db.files
  }

  /** What is left has its rows, and its references still lead somewhere. */
  ghost predicate SurvivorsIntact(db: Db, after: Db) {
    && (forall v :: v in after.versions ==> SameRows(db, after, v))
    && (forall u, v :: u in after.versions && Edge(db, u, v) ==> v in after.versions)
  }

  lemma BatchKeepsRows(db: Db, cutoff: Time, gone: set<VersionKey>, after: Db, v: VersionKey)
    requires Batch(db, cutoff, gone, after) && v in after.versions
    ensures SameRows(db, after, v)
  {
  }

  /** Over any number of batches: reachability, what is reachable, survivors' rows, cycles, and no dangling reference. */
  lemma {:induction false} RunKeeps(dbs: seq<Db>, cutoff: Time)
    requires Run(dbs, cutoff)
    ensures forall v :: Live(dbs[0], cutoff, v) <==> Live(dbs[|dbs| - 1], cutoff, v)
    ensures forall v :: Live(dbs[0], cutoff, v) ==> v in dbs[|dbs| - 1].versions
    ensures forall c :: Cycle(dbs[0], c) ==> Cycle(dbs[|dbs| - 1], c)
    ensures forall c :: Cycle(dbs[|dbs| - 1], c) ==> Cycle(dbs[0], c)
    ensures dbs[|dbs| - 1].versions.Keys <= dbs[0].versions.Keys
    ensures SurvivorsIntact(dbs[0], dbs[|dbs| - 1])
  {
    var n := |dbs| - 1;
    if n == 0 {
      forall v | Live(dbs[0], cutoff, v) ensures v in dbs[0].versions {
        var p :| Traces(dbs[0], cutoff, p, v);
      }
    } else {
      var front := dbs[..n];
      RunKeeps(front, cutoff);
      assert Batched(dbs[n - 1], cutoff, dbs[n]);
      var gone :| Batch(dbs[n - 1], cutoff, gone, dbs[n]);
      BatchKeeps(dbs[n - 1], cutoff, gone, dbs[n]);
      forall c | Cycle(dbs[n - 1], c) ensures Cycle(dbs[n], c) {
        CycleSurvives(dbs[n - 1], cutoff, gone, dbs[n], c);
      }
      assert forall c :: Cycle(dbs[n], c) ==> Cycle(dbs[n - 1], c);
      forall v | v in dbs[n].versions ensures SameRows(dbs[0], dbs[n], v) {
        BatchKeepsRows(dbs[n - 1], cutoff, gone, dbs[n], v);
        assert SameRows(dbs[0], dbs[n - 1], v);
      }
      forall u, v | u in dbs[n].versions && Edge(dbs[0], u, v) ensures v in dbs[n].versions {
        assert SameRows(dbs[0], dbs[n - 1], u);
        assert Edge(dbs[n - 1], u, v);
      }
    }
  }

  /**
   Repeating batches of any sizes until nothing is prunable leaves exactly the live
   manifests if and only if the store started without a stranded cycle.
   */
  lemma PruneRefinesTracing(dbs: seq<Db>, cutoff: Time)
    requires Run(dbs, cutoff) && Settled(dbs[|dbs| - 1], cutoff)
    ensures (forall v :: v in dbs[|dbs| - 1].versions <==> Live(dbs[0], cutoff, v))
            <==> (forall c :: !Stranded(dbs[0], cutoff, c))
  {
    var first, last := dbs[0], dbs[|dbs| - 1];
    RunKeeps(dbs, cutoff);
    if forall c :: !Stranded(first, cutoff, c) {
      assert forall c :: Stranded(last, cutoff, c) ==> Stranded(first, cutoff, c);
      forall v | v in last.versions ensures Live(last, cutoff, v) {
        if !Live(last, cutoff, v) {
          var c := DeadHasStrandedCycle(last, cutoff, v);
        }
      }
    } else {
      var c :| Stranded(first, cutoff, c);
      assert Cycle(last, c);
      assert c[0] in last.versions && !Live(first, cutoff, c[0]);
    }
  }

  /**
   When references follow content addressing, so that each one points at something
   of lower rank, the fixpoint is the tracing answer.
   */
  lemma {:induction false} RankedHasNoCycle(db: Db, rank: VersionKey -> nat, c: seq<VersionKey>)
    requires forall u, v :: Edge(db, u, v) ==> rank(v) < rank(u)
    ensures !Cycle(db, c)
  {
    if Cycle(db, c) {
      var i := 0;
      while i < |c| - 1
        invariant 0 <= i < |c|
        invariant rank(c[i]) <= rank(c[0])
      {
        assert Edge(db, c[i], c[i + 1]);
        i := i + 1;
      }
    }
  }

  lemma AcyclicPruneIsTracing(dbs: seq<Db>, cutoff: Time, rank: VersionKey -> nat)
    requires Run(dbs, cutoff) && Settled(dbs[|dbs| - 1], cutoff)
    requires forall u, v :: Edge(dbs[0], u, v) ==> rank(v) < rank(u)
    ensures forall v :: v in dbs[|dbs| - 1].versions <==> Live(dbs[0], cutoff, v)
  {
    forall c ensures !Stranded(dbs[0], cutoff, c) {
      RankedHasNoCycle(dbs[0], rank, c);
    }
    PruneRefinesTracing(dbs, cutoff);
  }

  // ---- the fixpoint is reached ---------------------------------------------

  ghost predicate Shrinks(db: Db, cutoff: Time, after: Db) {
    exists gone :: gone != {} && Batch(db, cutoff, gone, after)
  }

  /** A run in which every batch deletes something. */
  ghost predicate BusyRun(dbs: seq<Db>, cutoff: Time) {
    0 < |dbs| && forall i :: 0 <= i < |dbs| - 1 ==> Shrinks(dbs[i], cutoff, dbs[i + 1])
  }

  lemma BatchShrinks(db: Db, cutoff: Time, after: Db)
    requires Shrinks(db, cutoff, after)
    ensures |after.versions| < |db.versions| && Batched(db, cutoff, after)
  {
    var gone :| gone != {} && Batch(db, cutoff, gone, after);
    assert forall v :: v in gone ==> Prunable(db, cutoff, v);
    assert after.versions.Keys == db.versions.Keys - gone;
    SubsetSize(gone, db.versions.Keys);
  }

  /** Batches that delete something come to an end: there are at most as many as there are versions. */
  lemma {:induction false} BusyRunsAreShort(dbs: seq<Db>, cutoff: Time)
    requires BusyRun(dbs, cutoff)
    ensures Run(dbs, cutoff)
    ensures |dbs| - 1 + |dbs[|dbs| - 1].versions| <= |dbs[0].versions|
  {
    var n := |dbs| - 1;
    if n != 0 {
      BusyRunsAreShort(dbs[..n], cutoff);
      assert Shrinks(dbs[n - 1], cutoff, dbs[n]);
      BatchShrinks(dbs[n - 1], cutoff, dbs[n]);
      forall i | 0 <= i < n ensures Batched(dbs[i], cutoff, dbs[i + 1]) {
        assert i < n - 1 ==> Batched(dbs[..n][i], cutoff, dbs[..n][i + 1]);
      }
    }
  }

  /** A run of such batches that cannot be continued has reached the fixpoint. */
  lemma StoppingIsSettled(db: Db, cutoff: Time)
    ensures Settled(db, cutoff) <==> !exists after :: Shrinks(db, cutoff, after)
  {
    if v :| v in db.versions && Prunable(db, cutoff, v) {
      assert Batch(db, cutoff, {v}, DropVersions(db, {v}));
      assert Shrinks(db, cutoff, DropVersions(db, {v}));
    }
    if after :| Shrinks(db, cutoff, after) {
      var gone :| gone != {} && Batch(db, cutoff, gone, after);
      var v :| v in gone;
      assert Prunable(db, cutoff, v);
    }
  }
}

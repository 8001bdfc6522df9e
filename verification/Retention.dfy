/**
 Tag retention. `Drop` says which tags a policy deletes without mentioning any loop:
 a tag is dropped when enough unpinned tags are newer, or when it is too old. The
 sweep's counting loop is proved to compute it, and deleting dropped tags in any
 portions never changes which of the others are dropped.
 */
module Retention {
  import opened Base
  import opened Tables

  /** `pinned` is true of a name that some configured glob matches. */
  datatype Policy = Policy(keepLastN: int, maxAge: Time, pinned: Name -> bool)

  /** ORDER BY updated_at DESC; equal times are ordered by name, so that the order is stable. */
  predicate Newer(db: Db, t: TagKey, u: TagKey)
    requires t in db.tags && u in db.tags
  {
    || db.tags[u].updated < db.tags[t].updated
    || (db.tags[u].updated == db.tags[t].updated && t.name < u.name)
  }

  predicate Contends(db: Db, pol: Policy, pkg: Id, t: TagKey) {
    t in db.tags && t.pkg == pkg && !pol.pinned(t.name)
  }

  /** The unpinned tags of the package that are newer than `t`. */
  function Ahead(db: Db, pol: Policy, t: TagKey): (r: set<TagKey>)
    requires t in db.tags
    ensures forall u :: u in r <==> Contends(db, pol, t.pkg, u) && Newer(db, u, t)
  {
    set u | u in db.tags && Contends(db, pol, t.pkg, u) && Newer(db, u, t)
  }

  predicate TooOld(db: Db, pol: Policy, now: Time, t: TagKey)
    requires t in db.tags
  {
    0 < pol.maxAge && db.tags[t].updated < now - pol.maxAge
  }

  predicate Crowded(db: Db, pol: Policy, t: TagKey)
    requires t in db.tags
  {
    0 < pol.keepLastN <= |Ahead(db, pol, t)|
  }

  /** Pinned tags stay; of the others, exactly the newest KeepLastN within MaxAge stay. */
  predicate Drop(db: Db, pol: Policy, now: Time, t: TagKey) {
    Contends(db, pol, t.pkg, t) && (Crowded(db, pol, t) || TooOld(db, pol, now, t))
  }

  // ---- counting ------------------------------------------------------------

  /** The oldest of a non-empty set of tags. */
  lemma {:induction false} OldestExists(db: Db, s: set<TagKey>, x: TagKey) returns (o: TagKey)
    requires x in s && forall t :: t in s ==> t in db.tags && t.pkg == x.pkg
    ensures o in s && forall t :: t in s ==> t == o || Newer(db, t, o)
    decreases |set t | t in s && Newer(db, x, t)|
  {
    if y :| y in s && Newer(db, x, y) {
      var behindX := set t | t in s && Newer(db, x, t);
      var behindY := set t | t in s && Newer(db, y, t);
      assert behindY <= behindX - {y};
      SubsetSize(behindY, behindX - {y});
      o := OldestExists(db, s, y);
    } else {
      o := x;
      forall t | t in s ensures t == x || Newer(db, t, x) {
        assert !Newer(db, x, t);
      }
    }
  }

  function First(db: Db, pol: Policy, t: TagKey): (r: set<TagKey>)
    requires t in db.tags
  {
    set u | u in Ahead(db, pol, t) && !Crowded(db, pol, u)
  }

  /** Among the tags ahead of a crowded one, at least KeepLastN are themselves not crowded. */
  lemma {:induction false} EnoughAhead(db: Db, pol: Policy, t: TagKey)
    requires t in db.tags && Crowded(db, pol, t)
    ensures pol.keepLastN <= |First(db, pol, t)|
    decreases |Ahead(db, pol, t)|
  {
    var ahead := Ahead(db, pol, t);
    var x :| x in ahead;
    var o := OldestExists(db, ahead, x);
    assert Ahead(db, pol, o) == ahead - {o};
    if Crowded(db, pol, o) {
      EnoughAhead(db, pol, o);
      assert First(db, pol, o) <= First(db, pol, t);
      SubsetSize(First(db, pol, o), First(db, pol, t));
    } else {
      forall u | u in ahead ensures u in First(db, pol, t) {
        assert Ahead(db, pol, u) <= Ahead(db, pol, o);
        SubsetSize(Ahead(db, pol, u), Ahead(db, pol, o));
      }
      assert First(db, pol, t) == ahead;
    }
  }

  /** The loop's counter test agrees with the rank test on a tag that is not too old. */
  lemma CounterAgrees(db: Db, pol: Policy, now: Time, t: TagKey, kept: set<TagKey>)
    requires Contends(db, pol, t.pkg, t) && 0 < pol.keepLastN && !TooOld(db, pol, now, t)
    requires kept == set u | u in Ahead(db, pol, t) && !Drop(db, pol, now, u)
    ensures pol.keepLastN <= |kept| <==> Crowded(db, pol, t)
  {
    assert forall u :: u in Ahead(db, pol, t) ==> !TooOld(db, pol, now, u);
    assert kept == First(db, pol, t);
    if Crowded(db, pol, t) {
      EnoughAhead(db, pol, t);
    } else {
      assert kept <= Ahead(db, pol, t);
      SubsetSize(kept, Ahead(db, pol, t));
    }
  }

  // ---- confluence ----------------------------------------------------------

  predicate DoomedTag(db: Db, policyOf: Name -> Policy, now: Time, t: TagKey) {
    && t.pkg in db.packages && db.packages[t.pkg].kind == Oci
    && Drop(db, policyOf(db.packages[t.pkg].name), now, t)
  }

  /** The OCI tags some repository's policy drops. */
  function Doomed(db: Db, policyOf: Name -> Policy, now: Time): (r: set<TagKey>)
    ensures forall t :: t in r <==> t in db.tags && DoomedTag(db, policyOf, now, t)
  {
    set t | t in db.tags && DoomedTag(db, policyOf, now, t)
  }

  /** How many unpinned tags of the package come before `t`, the later update first and equal ones by name. */
  ghost function Before(db: Db, pinned: Name -> bool, t: TagKey): nat
    requires t in db.tags
  {
    |set u | u in db.tags && u.pkg == t.pkg && !pinned(u.name)
             && (db.tags[t].updated < db.tags[u].updated || (db.tags[u].updated == db.tags[t].updated && u.name < t.name))|
  }

  /**
   The rule in full: of the tags of OCI packages, the sweep deletes those that no glob pins and that
   are older than MaxAge or have KeepLastN unpinned tags before them; each limit counts only if set.
   */
  lemma DoomedIff(db: Db, policyOf: Name -> Policy, now: Time, t: TagKey)
    ensures t in Doomed(db, policyOf, now) <==>
              && t in db.tags && t.pkg in db.packages && db.packages[t.pkg].kind == Oci
              && var pol := policyOf(db.packages[t.pkg].name);
                 && !pol.pinned(t.name)
                 && (|| (0 < pol.maxAge && db.tags[t].updated + pol.maxAge < now)
                     || (0 < pol.keepLastN && pol.keepLastN <= Before(db, pol.pinned, t)))
  {
    if t in db.tags && t.pkg in db.packages {
      var pol := policyOf(db.packages[t.pkg].name);
      assert Ahead(db, pol, t)
          == set u | u in db.tags && u.pkg == t.pkg && !pol.pinned(u.name)
                     && (db.tags[t].updated < db.tags[u].updated || (db.tags[u].updated == db.tags[t].updated && u.name < t.name));
    }
  }

  function Without(db: Db, gone: set<TagKey>): Db {
    db.(tags := db.tags - gone)
  }

  lemma DropIsStable(db: Db, pol: Policy, now: Time, gone: set<TagKey>, t: TagKey)
    requires t in db.tags && t !in gone
    requires forall u :: u in gone && u in db.tags && u.pkg == t.pkg ==> Drop(db, pol, now, u)
    ensures Drop(Without(db, gone), pol, now, t) <==> Drop(db, pol, now, t)
  {
    var after := Without(db, gone);
    if Contends(db, pol, t.pkg, t) && !TooOld(db, pol, now, t) && 0 < pol.keepLastN {
      var before, now' := Ahead(db, pol, t), Ahead(after, pol, t);
      assert now' == before - gone;
      SubsetSize(now', before);
      if Crowded(db, pol, t) {
        EnoughAhead(db, pol, t);
        forall u | u in First(db, pol, t) ensures u in now' {
          assert !TooOld(db, pol, now, u);
          assert !Drop(db, pol, now, u);
        }
        assert First(db, pol, t) <= now';
        SubsetSize(First(db, pol, t), now');
      }
    }
  }

  /** Deleting any of the doomed tags dooms no other tag and spares no other tag. */
  lemma DeletingDoomedIsConfluent(db: Db, policyOf: Name -> Policy, now: Time, gone: set<TagKey>)
    requires gone <= Doomed(db, policyOf, now)
    ensures Doomed(Without(db, gone), policyOf, now) == Doomed(db, policyOf, now) - gone
  {
    var after := Without(db, gone);
    forall t | t in after.tags
      ensures t in Doomed(after, policyOf, now) <==> t in Doomed(db, policyOf, now)
    {
      if t.pkg in db.packages {
        DropIsStable(db, policyOf(db.packages[t.pkg].name), now, gone, t);
      }
    }
  }

  /** One sweep at the cap `cap` in which no database call failed. */
  ghost predicate CappedSweep(db: Db, policyOf: Name -> Policy, now: Time, cap: nat, after: Db) {
    exists gone ::
      && gone <= Doomed(db, policyOf, now)
      && |gone| == Minimum(cap, |Doomed(db, policyOf, now)|)
      && after == Without(db, gone)
  }

  ghost predicate Sweeps(dbs: seq<Db>, policyOf: Name -> Policy, now: Time, cap: nat) {
    0 < |dbs| && forall i :: 0 <= i < |dbs| - 1 ==> CappedSweep(dbs[i], policyOf, now, cap, dbs[i + 1])
  }

  /** `db` is `first` with some of its doomed tags deleted, and the rest still doomed. */
  ghost predicate Partway(first: Db, policyOf: Name -> Policy, now: Time, db: Db) {
    var all, left := Doomed(first, policyOf, now), Doomed(db, policyOf, now);
    left <= all && db == Without(first, all - left)
  }

  lemma WithoutBoth(db: Db, all: set<TagKey>, left: set<TagKey>, gone: set<TagKey>)
    requires gone <= left <= all
    ensures Without(Without(db, all - left), gone) == Without(db, all - (left - gone))
    ensures left - gone <= all
  {
    assert all - (left - gone) == (all - left) + gone;
    assert (db.tags - (all - left)) - gone == db.tags - ((all - left) + gone);
  }

  lemma SweepStaysPartway(first: Db, policyOf: Name -> Policy, now: Time, cap: nat, db: Db, after: Db)
    requires Partway(first, policyOf, now, db) && CappedSweep(db, policyOf, now, cap, after)
    ensures Partway(first, policyOf, now, after)
    ensures |Doomed(after, policyOf, now)| ==
            |Doomed(db, policyOf, now)| - Minimum(cap, |Doomed(db, policyOf, now)|)
  {
    var all, left := Doomed(first, policyOf, now), Doomed(db, policyOf, now);
    var gone :| gone <= left && |gone| == Minimum(cap, |left|) && after == Without(db, gone);
    DeletingDoomedIsConfluent(db, policyOf, now, gone);
    SubsetSize(gone, left);
    WithoutBoth(first, all, left, gone);
  }

  /** What is left to delete after n capped sweeps, and that nothing else was deleted. */
  lemma {:induction false} SweepsProgress(dbs: seq<Db>, policyOf: Name -> Policy, now: Time, cap: nat, n: nat)
    requires Sweeps(dbs, policyOf, now, cap) && n < |dbs|
    ensures Partway(dbs[0], policyOf, now, dbs[n])
    ensures |Doomed(dbs[n], policyOf, now)| ==
            |Doomed(dbs[0], policyOf, now)| - Minimum(n * cap, |Doomed(dbs[0], policyOf, now)|)
  {
    if n == 0 {
      assert dbs[0].tags - {} == dbs[0].tags;
    } else {
      SweepsProgress(dbs, policyOf, now, cap, n - 1);
      SweepStaysPartway(dbs[0], policyOf, now, cap, dbs[n - 1], dbs[n]);
      assert n * cap == (n - 1) * cap + cap;
    }
  }

  /** Enough capped sweeps leave exactly what one uncapped sweep leaves. */
  lemma CappedSweepsConverge(dbs: seq<Db>, policyOf: Name -> Policy, now: Time, cap: nat)
    requires Sweeps(dbs, policyOf, now, cap)
    requires |Doomed(dbs[0], policyOf, now)| <= (|dbs| - 1) * cap
    ensures dbs[|dbs| - 1] == Without(dbs[0], Doomed(dbs[0], policyOf, now))
    ensures Doomed(dbs[|dbs| - 1], policyOf, now) == {}
  {
    SweepsProgress(dbs, policyOf, now, cap, |dbs| - 1);
    assert Doomed(dbs[0], policyOf, now) - {} == Doomed(dbs[0], policyOf, now);
  }
}

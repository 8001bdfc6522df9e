/**
 The retention phase as it runs: list the packages page by page, list each package's
 tags newest first, count, collect candidates, delete within the budget. Database
 calls may fail; a failed call has no effect and is counted.
 */
module Sweep {
  import opened Base
  import opened Keyset
  import opened Tables
  import opened Retention

  const PACKAGE_PAGE: nat := 100

  ghost predicate Listing(db: Db, pkg: Id, rows: seq<TagKey>) {
    && (forall t :: t in rows <==> t in db.tags && t.pkg == pkg)
    && (forall i, j :: 0 <= i < j < |rows| ==> rows[i] in db.tags && rows[j] in db.tags && Newer(db, rows[i], rows[j]))
  }

  /** The tags of one package that its policy drops. */
  function Dropped(db: Db, pol: Policy, now: Time, pkg: Id): (r: set<TagKey>)
    ensures forall t :: t in r <==> t in db.tags && t.pkg == pkg && Drop(db, pol, now, t)
  {
    set t | t in db.tags && t.pkg == pkg && Drop(db, pol, now, t)
  }

  /** In a listing, the tags ahead of a row are the unpinned rows before it. */
  lemma AheadIsPrefix(db: Db, pol: Policy, pkg: Id, rows: seq<TagKey>, i: nat)
    requires Listing(db, pkg, rows) && i < |rows|
    ensures rows[i] in db.tags && rows[i].pkg == pkg && rows[i] !in rows[..i]
    ensures forall u :: u in Ahead(db, pol, rows[i]) <==> u in rows[..i] && !pol.pinned(u.name)
  {
    var t := rows[i];
    assert t in rows;
    forall u | u in Ahead(db, pol, t) ensures u in rows[..i] {
      assert u in rows;
      var j :| 0 <= j < |rows| && rows[j] == u;
      assert j < i;
    }
    forall u | u in rows[..i] ensures Newer(db, u, t) && u in db.tags && u.pkg == pkg {
      var j :| 0 <= j < i && rows[j] == u;
      assert u in rows;
    }
  }

  // ---- facts the loops use -------------------------------------------------

  lemma WithoutOneMore(db: Db, deleted: set<TagKey>, t: TagKey)
    ensures DeleteTag(Without(db, deleted), t) == Without(db, deleted + {t})
  {
    assert (db.tags - deleted) - {t} == db.tags - (deleted + {t});
  }

  lemma WithoutUnion(db: Db, a: set<TagKey>, b: set<TagKey>)
    ensures Without(Without(db, a), b) == Without(db, a + b)
  {
    assert (db.tags - a) - b == db.tags - (a + b);
  }

  /** The OCI packages by name; names are unique. */
  function OciByName(db: Db): (m: map<Name, Id>)
    requires WellKeyed(db)
    ensures forall n :: n in m ==> m[n] in db.packages && db.packages[m[n]].kind == Oci && db.packages[m[n]].name == n
    ensures forall i :: i in db.packages && db.packages[i].kind == Oci ==> db.packages[i].name in m && m[db.packages[i].name] == i
  {
    map i | i in db.packages && db.packages[i].kind == Oci :: db.packages[i].name := i
  }

  /** Every doomed tag of a package named up to `upTo` has been deleted. */
  ghost predicate Through(db: Db, doomed: set<TagKey>, deleted: set<TagKey>, upTo: nat) {
    forall t :: t in doomed ==> t.pkg in db.packages && (db.packages[t.pkg].name <= upTo ==> t in deleted)
  }

  /** Every doomed tag of the packages named in `page` has been deleted. */
  ghost predicate Covered(db: Db, doomed: set<TagKey>, deleted: set<TagKey>, page: seq<nat>) {
    forall t :: t in doomed && t.pkg in db.packages && db.packages[t.pkg].name in page ==> t in deleted
  }

  /** In the current database, one package's dropped tags are its doomed tags not yet deleted. */
  lemma DroppedIsDoomedHere(db0: Db, policyOf: Name -> Policy, now: Time, deleted: set<TagKey>, name: Name, pkg: Id)
    requires deleted <= Doomed(db0, policyOf, now)
    requires pkg in db0.packages && db0.packages[pkg].kind == Oci && db0.packages[pkg].name == name
    ensures forall t :: t in Dropped(Without(db0, deleted), policyOf(name), now, pkg)
                        <==> t in Doomed(db0, policyOf, now) && t !in deleted && t.pkg == pkg
  {
    DeletingDoomedIsConfluent(db0, policyOf, now, deleted);
    var db := Without(db0, deleted);
    forall t ensures t in Dropped(db, policyOf(name), now, pkg) <==> t in Doomed(db, policyOf, now) && t.pkg == pkg {
    }
  }

  lemma CoverOneMore(db0: Db, policyOf: Name -> Policy, now: Time, names: map<Name, Id>, deleted: set<TagKey>,
                     gone: set<TagKey>, page: seq<nat>, k: nat, pkg: Id)
    requires WellKeyed(db0) && names == OciByName(db0) && deleted <= Doomed(db0, policyOf, now)
    requires k < |page| && page[k] in names.Keys && pkg == names[page[k]]
    requires gone <= Dropped(Without(db0, deleted), policyOf(page[k]), now, pkg)
    ensures gone <= Doomed(db0, policyOf, now) && gone !! deleted
    ensures Without(Without(db0, deleted), gone) == Without(db0, deleted + gone)
    ensures Covered(db0, Doomed(db0, policyOf, now), deleted, page[..k])
            && gone == Dropped(Without(db0, deleted), policyOf(page[k]), now, pkg) ==>
              Covered(db0, Doomed(db0, policyOf, now), deleted + gone, page[..k + 1])
  {
    DroppedIsDoomedHere(db0, policyOf, now, deleted, page[k], pkg);
    WithoutUnion(db0, deleted, gone);
    assert page[..k + 1] == page[..k] + [page[k]];
  }

  lemma EmptyPageIsEnd(db: Db, names: map<Name, Id>, doomed: set<TagKey>, deleted: set<TagKey>, after: nat)
    requires forall t :: t in doomed ==> t.pkg in db.packages && db.packages[t.pkg].name in names
    requires Page(names.Keys, after, PACKAGE_PAGE) == [] && deleted <= doomed
    ensures Through(db, doomed, deleted, after) ==> deleted == doomed
  {
    forall t | t in doomed ensures db.packages[t.pkg].name <= after {
      var n := db.packages[t.pkg].name;
      if after < n {
        PageIsComplete(names.Keys, after, PACKAGE_PAGE, n);
      }
    }
  }

  lemma ShortPageIsEnd(db: Db, names: map<Name, Id>, doomed: set<TagKey>, deleted: set<TagKey>, after: nat, last: nat)
    requires forall t :: t in doomed ==> t.pkg in db.packages && db.packages[t.pkg].name in names
    requires var p := Page(names.Keys, after, PACKAGE_PAGE); p != [] && |p| < PACKAGE_PAGE && last == p[|p| - 1]
    requires deleted <= doomed
    ensures Through(db, doomed, deleted, last) ==> deleted == doomed
  {
    var p := Page(names.Keys, after, PACKAGE_PAGE);
    PageIsSound(names.Keys, after, PACKAGE_PAGE);
    forall t | t in doomed ensures db.packages[t.pkg].name <= last {
      var n := db.packages[t.pkg].name;
      if after < n {
        PageIsComplete(names.Keys, after, PACKAGE_PAGE, n);
        var i :| 0 <= i < |p| && p[i] == n;
      } else {
        assert p[|p| - 1] in p;
      }
    }
  }

  lemma AboveShrinks(keys: set<nat>, after: nat, last: nat)
    requires last in keys && after < last
    ensures |Above(keys, last)| < |Above(keys, after)|
  {
    assert Above(keys, last) <= Above(keys, after) - {last};
    SubsetSize(Above(keys, last), Above(keys, after) - {last});
  }

  lemma PageCovers(db: Db, names: map<Name, Id>, doomed: set<TagKey>, deleted: set<TagKey>, deleted0: set<TagKey>,
                   page: seq<nat>, after: nat)
    requires forall t :: t in doomed ==> t.pkg in db.packages && db.packages[t.pkg].name in names
    requires page == Page(names.Keys, after, PACKAGE_PAGE) && page != [] && deleted0 <= deleted
    requires Through(db, doomed, deleted0, after)
    requires Covered(db, doomed, deleted, page[..|page|])
    ensures Through(db, doomed, deleted, page[|page| - 1])
  {
    assert page[..|page|] == page;
    forall t | t in doomed && db.packages[t.pkg].name <= page[|page| - 1] ensures t in deleted {
      var n := db.packages[t.pkg].name;
      if after < n {
        PageIsComplete(names.Keys, after, PACKAGE_PAGE, n);
      }
    }
  }

  // ---- the loops -----------------------------------------------------------

  /** ListTagsForRetention */
  method TagsNewestFirst(store: Store, pkg: Id) returns (rows: seq<TagKey>)
    ensures Listing(store.db, pkg, rows)
  {
    rows := [];
    var rest := set t | t in store.db.tags && t.pkg == pkg;
    while rest != {}
      invariant forall t :: t in rest ==> t in store.db.tags && t.pkg == pkg
      invariant forall t :: t in rows ==> t in store.db.tags && t.pkg == pkg
      invariant forall t :: t in store.db.tags && t.pkg == pkg ==> t in rest || t in rows
      invariant forall t, u :: t in rest && u in rows ==> Newer(store.db, t, u)
      invariant forall i, j :: 0 <= i < j < |rows| ==> Newer(store.db, rows[i], rows[j])
      decreases |rest|
    {
      ghost var x :| x in rest;
      ghost var least := OldestExists(store.db, rest, x);
      assert least in rest && forall t :: t in rest ==> t == least || Newer(store.db, t, least);
      var o :| o in rest && forall t :: t in rest ==> t == o || Newer(store.db, t, o);
      rest := rest - {o};
      rows := [o] + rows;
    }
  }

  /** The counting loop of applyRetentionToPackage: exactly the dropped tags, each once. */
  method Candidates(store: Store, pkg: Id, pol: Policy, now: Time, rows: seq<TagKey>) returns (candidates: seq<TagKey>)
    requires Listing(store.db, pkg, rows)
    ensures forall t :: t in candidates <==> t in Dropped(store.db, pol, now, pkg)
    ensures forall a, b :: 0 <= a < b < |candidates| ==> candidates[a] != candidates[b]
  {
    candidates := [];
    var kept := 0;
    ghost var keptSet: set<TagKey> := {};
    var i := 0;
    while i < |rows|
      invariant 0 <= i <= |rows|
      invariant forall t :: t in candidates <==> t in rows[..i] && Drop(store.db, pol, now, t)
      invariant forall a, b :: 0 <= a < b < |candidates| ==> candidates[a] != candidates[b]
      invariant forall t :: t in keptSet <==> t in rows[..i] && !pol.pinned(t.name) && !Drop(store.db, pol, now, t)
      invariant 0 < pol.keepLastN ==> kept == |keptSet|
    {
      var t := rows[i];
      AheadIsPrefix(store.db, pol, pkg, rows, i);
      assert rows[..i + 1] == rows[..i] + [t];
      if !pol.pinned(t.name) {
        var drop := 0 < pol.keepLastN && pol.keepLastN <= kept;
        if !drop && 0 < pol.maxAge && store.db.tags[t].updated < now - pol.maxAge {
          drop := true;
        }
        assert drop == Drop(store.db, pol, now, t) by {
          if 0 < pol.keepLastN && !TooOld(store.db, pol, now, t) {
            assert keptSet == set u | u in Ahead(store.db, pol, t) && !Drop(store.db, pol, now, u);
            CounterAgrees(store.db, pol, now, t, keptSet);
          }
        }
        if drop {
          candidates := candidates + [t];
        } else {
          keptSet := keptSet + {t};
          if 0 < pol.keepLastN { kept := kept + 1; }
        }
      }
      i := i + 1;
    }
    assert rows[..|rows|] == rows;
  }

  /** The delete loop of applyRetentionToPackage; a negative budget is no budget. */
  method DeleteCandidates(store: Store, candidates: seq<TagKey>, budget: int) returns (deleted: set<TagKey>, errors: nat)
    requires forall a, b :: 0 <= a < b < |candidates| ==> candidates[a] != candidates[b]
    modifies store
    ensures store.reliable ==> errors == 0
    ensures forall t :: t in deleted ==> t in candidates
    ensures store.db == Without(old(store.db), deleted)
    ensures 0 <= budget ==> |deleted| <= budget
    ensures errors == 0 ==> (forall t :: t in candidates ==> t in deleted) || |deleted| == budget
  {
    deleted, errors := {}, 0;
    assert store.db.tags - {} == store.db.tags;
    var j := 0;
    while j < |candidates|
      invariant store.reliable ==> errors == 0
      invariant 0 <= j <= |candidates|
      invariant forall t :: t in deleted ==> t in candidates[..j]
      invariant store.db == Without(old(store.db), deleted)
      invariant 0 <= budget ==> |deleted| <= budget
      invariant errors == 0 ==> forall t :: t in candidates[..j] ==> t in deleted
    {
      if 0 <= budget && budget <= |deleted| {
        break;
      }
      var t := candidates[j];
      assert t !in candidates[..j];
      assert candidates[..j + 1] == candidates[..j] + [t];
      var ok := store.Attempt();
      if ok {
        WithoutOneMore(old(store.db), deleted, t);
        store.db := DeleteTag(store.db, t);
        deleted := deleted + {t};
      } else {
        errors := errors + 1;
      }
      j := j + 1;
    }
    assert candidates[..|candidates|] == candidates;
  }

  /** applyRetentionToPackage */
  method ApplyRetention(store: Store, pkg: Id, pol: Policy, now: Time, budget: int)
    returns (deleted: set<TagKey>, errors: nat)
    modifies store
    ensures store.reliable ==> errors == 0
    ensures deleted <= Dropped(old(store.db), pol, now, pkg)
    ensures store.db == Without(old(store.db), deleted)
    ensures 0 <= budget ==> |deleted| <= budget
    ensures errors == 0 ==> deleted == Dropped(old(store.db), pol, now, pkg) || |deleted| == budget
  {
    var ok := store.Attempt();
    if !ok {
      assert store.db.tags - {} == store.db.tags;
      return {}, 1;
    }
    var rows := TagsNewestFirst(store, pkg);
    var candidates := Candidates(store, pkg, pol, now, rows);
    deleted, errors := DeleteCandidates(store, candidates, budget);
  }

  /** One package of a page, within what is left of the cap. */
  method SweepPackage(store: Store, ghost db0: Db, names: map<Name, Id>, page: seq<nat>, k: nat,
                      policyOf: Name -> Policy, now: Time, budget: int, ghost deleted: set<TagKey>)
    returns (gone: set<TagKey>, errors: nat)
    requires deleted <= Doomed(db0, policyOf, now) && store.db == Without(db0, deleted)
    requires WellKeyed(db0) && names == OciByName(db0)
    requires k < |page| && page[k] in names.Keys
    modifies store
    ensures store.reliable ==> errors == 0
    ensures gone <= Doomed(db0, policyOf, now) && gone !! deleted
    ensures store.db == Without(db0, deleted + gone)
    ensures 0 <= budget ==> |gone| <= budget
    ensures errors == 0 && Covered(db0, Doomed(db0, policyOf, now), deleted, page[..k]) ==>
              || Covered(db0, Doomed(db0, policyOf, now), deleted + gone, page[..k + 1])
              || |gone| == budget
  {
    var pkg := names[page[k]];
    gone, errors := ApplyRetention(store, pkg, policyOf(page[k]), now, budget);
    CoverOneMore(db0, policyOf, now, names, deleted, gone, page, k, pkg);
  }

  /** The packages of one page, in order, until the cap is reached. */
  method SweepPage(store: Store, ghost db0: Db, names: map<Name, Id>, page: seq<nat>, ghost after: nat,
                   policyOf: Name -> Policy, now: Time, cap: int, deleted0: set<TagKey>)
    returns (deleted: set<TagKey>, errors: nat)
    requires deleted0 <= Doomed(db0, policyOf, now) && store.db == Without(db0, deleted0)
    requires WellKeyed(db0) && names == OciByName(db0)
    requires page == Page(names.Keys, after, PACKAGE_PAGE) && page != []
    requires 0 < cap ==> |deleted0| <= cap
    modifies store
    ensures store.reliable ==> errors == 0
    ensures deleted0 <= deleted <= Doomed(db0, policyOf, now) && store.db == Without(db0, deleted)
    ensures 0 < cap ==> |deleted| <= cap
    ensures errors == 0 && (Through(db0, Doomed(db0, policyOf, now), deleted0, after) || (0 < cap && |deleted0| == cap)) ==>
              || Through(db0, Doomed(db0, policyOf, now), deleted, page[|page| - 1])
              || (0 < cap && |deleted| == cap)
  {
    PageIsSound(names.Keys, after, PACKAGE_PAGE);
    assert forall i :: 0 <= i < |page| ==> page[i] in page;
    deleted, errors := deleted0, 0;
    ghost var doomed := Doomed(db0, policyOf, now);
    var k := 0;
    while k < |page|
      invariant store.reliable ==> errors == 0
      invariant 0 <= k <= |page|
      invariant deleted0 <= deleted <= doomed && store.db == Without(db0, deleted)
      invariant 0 < cap ==> |deleted| <= cap
      invariant errors == 0 ==> (0 < cap && |deleted| == cap) || Covered(db0, doomed, deleted, page[..k])
    {
      if 0 < cap && cap <= |deleted| {
        break;
      }
      var gone, errs := SweepPackage(store, db0, names, page, k, policyOf, now,
                                     if 0 < cap then cap - |deleted| else -1, deleted);
      deleted, errors := deleted + gone, errors + errs;
      k := k + 1;
    }
    SubsetSize(deleted0, deleted);
    if errors == 0 && Through(db0, doomed, deleted0, after) && !(0 < cap && |deleted| == cap) {
      PageCovers(db0, names, doomed, deleted, deleted0, page, after);
    }
  }

  /** retentionSweep; a cap of zero or less is no cap. */
  method RetentionSweep(store: Store, policyOf: Name -> Policy, now: Time, cap: int)
    returns (deleted: set<TagKey>, errors: nat)
    requires WellKeyed(store.db)
    modifies store
    ensures store.reliable ==> errors == 0
    ensures deleted <= Doomed(old(store.db), policyOf, now)
    ensures store.db == Without(old(store.db), deleted)
    ensures 0 < cap ==> |deleted| <= cap
    ensures errors == 0 && cap <= 0 ==> deleted == Doomed(old(store.db), policyOf, now)
    ensures errors == 0 && 0 < cap ==> |deleted| == Minimum(cap, |Doomed(old(store.db), policyOf, now)|)
  {
    deleted, errors := {}, 0;
    ghost var db0 := store.db;
    ghost var doomed := Doomed(store.db, policyOf, now);
    assert store.db.tags - {} == store.db.tags;
    var names := OciByName(store.db);
    var after: nat := 0;
    while cap <= 0 || |deleted| < cap
      invariant store.reliable ==> errors == 0
      invariant deleted <= doomed && store.db == Without(db0, deleted)
      invariant 0 < cap ==> |deleted| <= cap
      invariant errors == 0 ==> Through(db0, doomed, deleted, after) || (0 < cap && |deleted| == cap)
      decreases |Above(names.Keys, after)|
    {
      var ok := store.Attempt();
      if !ok {
        errors := errors + 1;
        return;
      }
      var page := Page(names.Keys, after, PACKAGE_PAGE);
      PageIsSound(names.Keys, after, PACKAGE_PAGE);
      if page == [] {
        EmptyPageIsEnd(db0, names, doomed, deleted, after);
        break;
      }
      var more, errs := SweepPage(store, db0, names, page, after, policyOf, now, cap, deleted);
      deleted, errors := more, errors + errs;
      var last := page[|page| - 1];
      if |page| < PACKAGE_PAGE {
        ShortPageIsEnd(db0, names, doomed, deleted, after, last);
        break;
      }
      AboveShrinks(names.Keys, after, last);
      after := last;
    }
    if errors == 0 {
      SubsetSize(deleted, doomed);
    }
  }
}

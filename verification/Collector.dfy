/**
 The garbage collector: the seven phases of one cycle over the database and the blob
 directory. Any database or storage call may fail without effect; `errors` counts the
 failures that the source logs. There are no concurrent writers here; module Grace has
 the interleavings.
 */
module Collector {
  import opened Base
  import opened Keyset
  import opened Tables
  import opened Prune
  import opened Retention
  import Sweep

  datatype Stored = Stored(size: nat, mtime: Time)

  datatype Config = Config(stalePeerAge: Time, orphanBatch: int, grace: Time, untaggedAge: Time, untaggedBatch: int,
                           tagsPerCycle: int, tombAge: Time, local: Actor, policyOf: Name -> Policy)

  const DEFAULT_BATCH: nat := 500
  const KNOWN_PAGE: nat := 1000
  const RECONCILE_PAGE: nat := 500

  function BatchSize(configured: int): (n: nat)
    ensures 0 < n && (0 < configured ==> n == configured)
  {
    if configured <= 0 then DEFAULT_BATCH else configured
  }

  function RowCutoff(cfg: Config, now: Time): Option<Time> {
    if 0 < cfg.grace then Some(now - cfg.grace) else None
  }

  /** A file the disk sweep may delete: no row, no reference, outside the grace period. */
  predicate Expendable(db: Db, disk: map<Digest, Stored>, cfg: Config, now: Time, d: Digest) {
    d in disk && d !in db.blobs && !Referenced(db, d) && (0 < cfg.grace ==> disk[d].mtime <= now - cfg.grace)
  }

  /** time.Now(): never earlier than the last reading. */
  method ReadClock(last: Time) returns (now: Time)
    ensures last <= now
  {
    now := *;
    if now < last {
      now := last;
    }
  }

  /** SELECT … LIMIT n without ORDER BY: any selection of the right size. */
  method Select<T(==)>(s: set<T>, limit: nat) returns (p: set<T>)
    ensures p <= s && |p| == Minimum(limit, |s|)
  {
    p := {};
    while |p| < limit && p != s
      invariant p <= s && |p| <= limit
      decreases |s - p|
    {
      assert s - p != {} by { assert p + (s - p) == s; }
      var x :| x in s - p;
      assert s - p == s - (p + {x}) + {x};
      p := p + {x};
    }
    SubsetSize(p, s);
  }

  // ---- reachability from tags ----------------------------------------------

  ghost predicate TagTraces(db: Db, p: seq<VersionKey>, v: VersionKey) {
    Path(db, p) && Tagged(db, p[0]) && p[|p| - 1] == v
  }

  /** A tag of the package reaches `v` along child and subject references. */
  ghost predicate TagLive(db: Db, v: VersionKey) {
    exists p :: TagTraces(db, p, v)
  }

  lemma BatchKeepsTagLive(db: Db, cutoff: Time, gone: set<VersionKey>, after: Db)
    requires Batch(db, cutoff, gone, after)
    ensures forall v :: TagLive(db, v) ==> TagLive(after, v) && v !in gone
  {
    forall v | TagLive(db, v) ensures TagLive(after, v) && v !in gone {
      var p :| TagTraces(db, p, v);
      assert Traces(db, cutoff, p, v);
      forall i | 0 <= i < |p| ensures p[i] in after.versions && p[i] !in gone {
        TraceIsLive(db, cutoff, p, v, i);
        if p[i] in gone { PrunableIsDead(db, cutoff, p[i]); }
      }
      assert TagTraces(after, p, v);
    }
  }

  /** The versions that went, and with them exactly their file rows. */
  ghost predicate Thinned(db: Db, after: Db) {
    && after.versions.Keys <= db.versions.Keys
    && (forall v :: v in after.versions ==> after.versions[v] == db.versions[v])
    && (forall f :: f in after.files <==> f in db.files && f.owner !in db.versions.Keys - after.versions.Keys)
  }

  lemma ThinnedTwice(a: Db, b: Db, gone: set<VersionKey>)
    requires Thinned(a, b)
    ensures Thinned(a, DropVersions(b, gone * b.versions.Keys))
  {
  }

  lemma TombsDoNotMatter(db0: Db, a: Db, b: Db)
    requires b == a.(tombs := b.tombs)
    ensures Thinned(db0, a) ==> Thinned(db0, b)
    ensures forall v :: TagLive(a, v) ==> TagLive(b, v)
  {
    forall v | TagLive(a, v) ensures TagLive(b, v) {
      var p :| TagTraces(a, p, v);
      assert TagTraces(b, p, v);
    }
  }

  lemma DeleteNone(db: Db)
    ensures db.(blobs := db.blobs - {}) == db
  {
    assert db.blobs - {} == db.blobs;
  }

  lemma DeleteOneMore(db: Db, removed: set<Digest>, d: Digest)
    ensures DeleteBlob(db.(blobs := db.blobs - removed), d) == db.(blobs := db.blobs - (removed + {d}))
  {
    assert db.blobs - removed - {d} == db.blobs - (removed + {d});
  }

  lemma FewerBlobs(db: Db, removed: set<Digest>)
    requires removed <= db.blobs.Keys
    ensures removed != {} ==> |db.blobs - removed| < |db.blobs|
  {
    assert (db.blobs - removed).Keys == db.blobs.Keys - removed;
    SubsetSize(removed, db.blobs.Keys);
  }

  /** `t` is the tombstone due for a manifest of a repository that `local` owns. */
  predicate Buries(packages: map<Id, Package>, local: Actor, v: VersionKey, t: TombKey) {
    && local != 0 && v.pkg in packages && packages[v.pkg].owner == local
    && t == TombKey(packages[v.pkg].name, v.digest)
  }

  /** Old tombstones are kept, and new ones are `local`'s, dated now, for the rows. */
  ghost predicate Dug(packages: map<Id, Package>, local: Actor, rows: set<VersionKey>, was: map<TombKey, Tomb>,
                      tombs: map<TombKey, Tomb>, now: Time) {
    && (forall t :: t in was ==> t in tombs && tombs[t] == was[t])
    && (forall t :: t in tombs && t !in was ==> tombs[t] == Tomb(local, now) && exists r :: r in rows && Buries(packages, local, r, t))
  }

  ghost predicate AllDug(packages: map<Id, Package>, local: Actor, rows: set<VersionKey>, tombs: map<TombKey, Tomb>) {
    forall r, t :: r in rows && Buries(packages, local, r, t) ==> t in tombs
  }

  /** Once prunable, a manifest stays so through later batches and later cutoffs until it is deleted. */
  lemma PrunableStays(db: Db, cutoff: Time, gone: set<VersionKey>, later: Time, v: VersionKey)
    requires Prunable(db, cutoff, v) && v !in gone && cutoff <= later
    ensures Prunable(DropVersions(db, gone), later, v)
  {
    assert forall u :: Edge(DropVersions(db, gone), u, v) ==> Edge(db, u, v);
  }

  lemma PrunableIgnoresTombs(db: Db, cutoff: Time, later: Time, v: VersionKey, after: Db)
    requires Prunable(db, cutoff, v) && after == db.(tombs := after.tombs) && cutoff <= later
    ensures Prunable(after, later, v)
  {
    assert forall u :: Edge(after, u, v) ==> Edge(db, u, v);
  }

  ghost predicate Pursued(db0: Db, first: Time, db: Db, cutoff: Time, v: VersionKey) {
    && (TagLive(db0, v) ==> TagLive(db, v) && v in db.versions)
    && (Prunable(db0, first, v) && v in db.versions ==> Prunable(db, cutoff, v))
  }

  /**
   What the prune phase keeps between batches: nothing but versions, their files and tombstones
   has changed, what a tag reaches is still there, and what was prunable at the phase's first
   cutoff is deleted or still prunable.
   */
  ghost predicate Pruning(db0: Db, first: Time, db: Db, cutoff: Time) {
    && db == db0.(versions := db.versions, files := db.files, tombs := db.tombs)
    && Thinned(db0, db)
    && (forall v :: Pursued(db0, first, db, cutoff, v))
  }

  lemma PruningStarts(db: Db, cutoff: Time)
    ensures Pruning(db, cutoff, db, cutoff)
  {
    forall v ensures Pursued(db, cutoff, db, cutoff, v) {
      if p :| TagTraces(db, p, v) {
        assert v in db.versions;
      }
    }
  }

  lemma BatchKeepsPruning(db0: Db, first: Time, db: Db, cutoff: Time, gone: set<VersionKey>, after: Db)
    requires Pruning(db0, first, db, cutoff) && Batch(db, cutoff, gone, after)
    ensures Pruning(db0, first, after, cutoff)
  {
    BatchKeepsTagLive(db, cutoff, gone, after);
    assert gone * db.versions.Keys == gone;
    ThinnedTwice(db0, db, gone);
    forall v ensures Pursued(db0, first, after, cutoff, v) {
      assert Pursued(db0, first, db, cutoff, v);
      if Prunable(db0, first, v) && v in after.versions {
        PrunableStays(db, cutoff, gone, cutoff, v);
      }
    }
  }

  /** Tombstones and the passing of time do not matter. */
  lemma PruningGoesOn(db0: Db, first: Time, db: Db, cutoff: Time, later: Time, after: Db)
    requires Pruning(db0, first, db, cutoff) && cutoff <= later && after == db.(tombs := after.tombs)
    ensures Pruning(db0, first, after, later)
  {
    TombsDoNotMatter(db0, db, after);
    forall v ensures Pursued(db0, first, after, later, v) {
      assert Pursued(db0, first, db, cutoff, v);
      if Prunable(db0, first, v) && v in after.versions {
        PrunableIgnoresTombs(db, cutoff, later, v, after);
      }
    }
  }

  /** Version u of the same package lists v in a file row or names it as its subject. */
  ghost predicate Lists(db: Db, u: VersionKey, v: VersionKey) {
    u in db.versions && u.pkg == v.pkg && (FileRow(u, v.digest) in db.files || db.versions[u].subject == Some(v.digest))
  }

  /** What a surviving version of the package lists or names as its subject survives. */
  ghost predicate ListedVersionsSurvive(db0: Db, db: Db) {
    forall u, v :: u in db.versions && v in db0.versions && Lists(db0, u, v) ==> v in db.versions
  }

  /** One batch of the phase, and the tombstones written after it. */
  ghost predicate Took(db: Db, cutoff: Time, gone: set<VersionKey>, after: Db) {
    && Batch(db, cutoff, gone, DropVersions(db, gone)) && after == DropVersions(db, gone).(tombs := after.tombs)
    && forall t :: t in db.tombs ==> t in after.tombs && after.tombs[t] == db.tombs[t]
  }

  ghost predicate TookAll(db: Db, cutoff: Time, gone: set<VersionKey>) {
    forall v :: Prunable(db, cutoff, v) ==> v in gone
  }

  /** The batch takes only OCI manifests older than the cutoff that no tag, file row or subject of their package names. */
  ghost predicate Selective(db: Db, cutoff: Time, rows: set<VersionKey>) {
    forall v :: v in rows ==>
      && v in db.versions && v.pkg in db.packages && db.packages[v.pkg].kind == Oci
      && db.versions[v].created < cutoff && Untagged(db, v) && Unlisted(db, v)
  }

  /** It takes all of them. */
  ghost predicate Exhaustive(db: Db, cutoff: Time, rows: set<VersionKey>) {
    forall v :: v in db.versions && v !in rows ==>
      || v.pkg !in db.packages || db.packages[v.pkg].kind != Oci || cutoff <= db.versions[v].created
      || !Untagged(db, v) || !Unlisted(db, v)
  }

  lemma BatchIsSelective(db: Db, cutoff: Time, rows: set<VersionKey>)
    ensures Selective(db, cutoff, rows) <==> forall v :: v in rows ==> Prunable(db, cutoff, v)
    ensures Exhaustive(db, cutoff, rows) <==> TookAll(db, cutoff, rows)
  {
    forall v ensures Prunable(db, cutoff, v) <==>
        && v in db.versions && v.pkg in db.packages && db.packages[v.pkg].kind == Oci
        && db.versions[v].created < cutoff && Untagged(db, v) && Unlisted(db, v)
    {
      PrunableIff(db, cutoff, v);
    }
  }

  /** What is left of db0 is of another kind, young, tagged or listed there: nothing the query selected then. */
  ghost predicate NoneLeft(db0: Db, first: Time, db: Db) {
    forall v :: v in db0.versions && v in db.versions ==>
      || v.pkg !in db0.packages || db0.packages[v.pkg].kind != Oci || first <= db0.versions[v].created
      || !Untagged(db0, v) || !Unlisted(db0, v)
  }

  lemma RoundKeepsPruning(db0: Db, first: Time, db: Db, last: Time, cutoff: Time, gone: set<VersionKey>, after: Db)
    requires Pruning(db0, first, db, last) && last <= cutoff && Took(db, cutoff, gone, after)
    ensures Pruning(db0, first, after, cutoff)
    ensures TookAll(db, cutoff, gone) ==> NoneLeft(db0, first, after)
  {
    var mid := DropVersions(db, gone);
    PruningGoesOn(db0, first, db, last, cutoff, db);
    BatchKeepsPruning(db0, first, db, cutoff, gone, mid);
    PruningGoesOn(db0, first, mid, cutoff, cutoff, after);
    if TookAll(db, cutoff, gone) {
      forall v | v in db0.versions && v in after.versions ensures !Prunable(db0, first, v) {
        assert Pursued(db0, first, db, cutoff, v);
      }
      forall v ensures Prunable(db0, first, v) <==>
          && v in db0.versions && v.pkg in db0.packages && db0.packages[v.pkg].kind == Oci
          && db0.versions[v].created < first && Untagged(db0, v) && Unlisted(db0, v)
      {
        PrunableIff(db0, first, v);
      }
    }
  }

  /** One batch of a prune phase: the snapshot it found, its cutoff, what it took and what it left. */
  datatype Round = Round(before: Db, cutoff: Time, gone: set<VersionKey>, after: Db)

  ghost predicate RoundOk(r: Round) {
    Took(r.before, r.cutoff, r.gone, r.after)
  }

  ghost predicate Follows(r: Round, next: Round) {
    next.before == r.after && r.cutoff <= next.cutoff
  }

  function LastCutoff(first: Time, rounds: seq<Round>): Time {
    if rounds == [] then first else rounds[|rounds| - 1].cutoff
  }

  function LastDb(db0: Db, rounds: seq<Round>): Db {
    if rounds == [] then db0 else rounds[|rounds| - 1].after
  }

  /** A batch and its tombstones make a round. */
  lemma RoundIsOk(db: Db, cutoff: Time, rows: set<VersionKey>, mid: Db, after: Db, local: Actor, age: Time)
    requires Selective(db, cutoff, rows) && mid == DropVersions(db, rows) && after == mid.(tombs := after.tombs)
    requires Dug(mid.packages, local, rows, mid.tombs, after.tombs, cutoff + age)
    ensures RoundOk(Round(db, cutoff, rows, after))
    ensures AllDug(mid.packages, local, rows, after.tombs) ==> Buried(local, age, Round(db, cutoff, rows, after))
    ensures Exhaustive(db, cutoff, rows) ==> TookAll(db, cutoff, rows)
  {
    BatchIsSelective(db, cutoff, rows);
  }

  /** The rounds of a phase that began with db0, with cutoffs that never go back. */
  ghost predicate Rounds(db0: Db, first: Time, rounds: seq<Round>) {
    && (forall i :: 0 <= i < |rounds| ==> RoundOk(rounds[i]))
    && (forall i :: 0 <= i < |rounds| - 1 ==> Follows(rounds[i], rounds[i + 1]))
    && (rounds != [] ==> rounds[0].before == db0 && first <= rounds[0].cutoff)
  }

  /** Every manifest of the round from a repository that `local` owns has its tombstone, and new ones bear the round's time. */
  ghost predicate Buried(local: Actor, age: Time, r: Round) {
    && AllDug(r.before.packages, local, r.gone, r.after.tombs)
    && Dug(r.before.packages, local, r.gone, r.before.tombs, r.after.tombs, r.cutoff + age)
  }

  ghost predicate AllBuried(local: Actor, age: Time, rounds: seq<Round>) {
    forall i :: 0 <= i < |rounds| ==> Buried(local, age, rounds[i])
  }

  /** What the phase as a whole leaves: a tombstone for every pruned manifest of an owned repository. */
  ghost predicate Graves(db0: Db, first: Time, db: Db, local: Actor, age: Time) {
    && (forall t :: t in db0.tombs ==> t in db.tombs && db.tombs[t] == db0.tombs[t])
    && (forall t :: t in db.tombs && t !in db0.tombs ==> first + age <= db.tombs[t].deleted)
    && (forall v, t :: v in db0.versions && v !in db.versions && Buries(db0.packages, local, v, t) ==> t in db.tombs)
  }

  lemma RoundKeepsGraves(db0: Db, first: Time, db: Db, local: Actor, age: Time, r: Round)
    requires Graves(db0, first, db, local, age) && db.packages == db0.packages
    requires r.before == db && RoundOk(r) && Buried(local, age, r) && first <= r.cutoff
    ensures Graves(db0, first, r.after, local, age) && r.after.packages == db0.packages
  {
    forall v, t | v in db0.versions && v !in r.after.versions && Buries(db0.packages, local, v, t) ensures t in r.after.tombs {
      assert v in db.versions ==> v in r.gone;
    }
  }

  lemma {:induction false} RoundsBury(db0: Db, first: Time, rounds: seq<Round>, local: Actor, age: Time)
    requires Rounds(db0, first, rounds) && AllBuried(local, age, rounds)
    ensures Graves(db0, first, LastDb(db0, rounds), local, age) && LastDb(db0, rounds).packages == db0.packages
    ensures first <= LastCutoff(first, rounds)
  {
    if rounds != [] {
      var r, rest := rounds[|rounds| - 1], rounds[..|rounds| - 1];
      RoundsBury(db0, first, rest, local, age);
      assert rest != [] ==> Follows(rest[|rest| - 1], r);
      assert RoundOk(r) && Buried(local, age, r);
      RoundKeepsGraves(db0, first, LastDb(db0, rest), local, age, r);
    }
  }

  /** The last round took everything that was prunable. */
  ghost predicate EndsShort(rounds: seq<Round>) {
    rounds != [] && var r := rounds[|rounds| - 1]; TookAll(r.before, r.cutoff, r.gone)
  }

  lemma {:induction false} RoundsKeepPruning(db0: Db, first: Time, rounds: seq<Round>)
    requires Rounds(db0, first, rounds)
    ensures Pruning(db0, first, LastDb(db0, rounds), LastCutoff(first, rounds))
    ensures EndsShort(rounds) ==> NoneLeft(db0, first, LastDb(db0, rounds))
  {
    if rounds == [] {
      PruningStarts(db0, first);
    } else {
      var r, rest := rounds[|rounds| - 1], rounds[..|rounds| - 1];
      RoundsKeepPruning(db0, first, rest);
      assert rest != [] ==> Follows(rest[|rest| - 1], r);
      assert RoundOk(r);
      RoundKeepsPruning(db0, first, r.before, LastCutoff(first, rest), r.cutoff, r.gone, r.after);
    }
  }

  lemma RoundsAreSafe(db0: Db, first: Time, rounds: seq<Round>, db: Db)
    requires Rounds(db0, first, rounds) && db == LastDb(db0, rounds)
    ensures db == db0.(versions := db.versions, files := db.files, tombs := db.tombs)
    ensures Thinned(db0, db)
    ensures forall v :: TagLive(db0, v) ==> v in db.versions
  {
    RoundsKeepPruning(db0, first, rounds);
    forall v | TagLive(db0, v) ensures v in db.versions {
      assert Pursued(db0, first, db, LastCutoff(first, rounds), v);
    }
  }

  lemma RoundKeepsListed(db0: Db, db: Db, r: Round)
    requires ListedVersionsSurvive(db0, db) && Thinned(db0, db) && r.before == db && RoundOk(r)
    ensures ListedVersionsSurvive(db0, r.after)
  {
    BatchIsSelective(db, r.cutoff, r.gone);
    forall u, v | u in r.after.versions && v in db0.versions && Lists(db0, u, v) ensures v in r.after.versions {
      assert u in db.versions && v in db.versions && !Unlisted(db, v);
    }
  }

  lemma {:induction false} RoundsKeepListed(db0: Db, first: Time, rounds: seq<Round>)
    requires Rounds(db0, first, rounds)
    ensures ListedVersionsSurvive(db0, LastDb(db0, rounds))
  {
    if rounds != [] {
      var r, rest := rounds[|rounds| - 1], rounds[..|rounds| - 1];
      RoundsKeepListed(db0, first, rest);
      RoundsAreSafe(db0, first, rest, LastDb(db0, rest));
      assert rest != [] ==> Follows(rest[|rest| - 1], r);
      assert RoundOk(r);
      RoundKeepsListed(db0, LastDb(db0, rest), r);
    }
  }

  /** A last batch that takes all it finds leaves nothing that was prunable when the phase began. */
  lemma ShortRoundEnds(db0: Db, first: Time, rounds: seq<Round>, db: Db)
    requires Rounds(db0, first, rounds) && db == LastDb(db0, rounds) && EndsShort(rounds)
    ensures NoneLeft(db0, first, db)
  {
    RoundsKeepPruning(db0, first, rounds);
  }

  lemma OneMoreRound(db0: Db, first: Time, rounds: seq<Round>, r: Round, local: Actor, age: Time)
    requires Rounds(db0, first, rounds) && r.before == LastDb(db0, rounds) && LastCutoff(first, rounds) <= r.cutoff
    requires RoundOk(r)
    ensures Rounds(db0, first, rounds + [r]) && LastCutoff(first, rounds + [r]) == r.cutoff
    ensures LastDb(db0, rounds + [r]) == r.after
    ensures TookAll(r.before, r.cutoff, r.gone) ==> EndsShort(rounds + [r])
    ensures AllBuried(local, age, rounds) && Buried(local, age, r) ==> AllBuried(local, age, rounds + [r])
  {
    var all := rounds + [r];
    forall i | 0 <= i < |all| ensures RoundOk(all[i]) {
      assert i < |rounds| ==> RoundOk(rounds[i]);
    }
    forall i | 0 <= i < |all| - 1 ensures Follows(all[i], all[i + 1]) {
      assert i < |rounds| - 1 ==> Follows(rounds[i], rounds[i + 1]);
    }
    if AllBuried(local, age, rounds) && Buried(local, age, r) {
      forall i | 0 <= i < |all| ensures Buried(local, age, all[i]) {
        assert i < |rounds| ==> Buried(local, age, rounds[i]);
      }
    }
  }

  // ---- drift ---------------------------------------------------------------

  /** A row that claims local bytes which are gone and which no peer holds. */
  predicate IsLost(db: Db, disk: map<Digest, Stored>, d: Digest) {
    d in db.blobs && db.blobs[d].storedLocally && d !in disk && !HasPeer(db, d)
  }

  function FixedRow(db: Db, disk: map<Digest, Stored>, d: Digest): Blob
    requires d in db.blobs
  {
    if IsLost(db, disk, d) then db.blobs[d] else db.blobs[d].(storedLocally := d in disk)
  }

  function FixOne(db: Db, disk: map<Digest, Stored>, d: Digest): Db
    requires d in db.blobs
  {
    db.(blobs := db.blobs[d := FixedRow(db, disk, d)])
  }

  lemma FixOneSame(db: Db, disk: map<Digest, Stored>, d: Digest)
    requires d in db.blobs
    ensures FixedRow(db, disk, d) == db.blobs[d] ==> FixOne(db, disk, d) == db
  {
    if FixedRow(db, disk, d) == db.blobs[d] {
      assert db.blobs[d := db.blobs[d]] == db.blobs;
    }
  }

  /**
   The rows in `seen` are fixed or, after a failure, as they were; the others are as they
   were; `lost` holds only lost rows, and without failures all of those seen.
   */
  ghost predicate Progress(db0: Db, db: Db, disk: map<Digest, Stored>, seen: set<Digest>, lost: set<Digest>, clean: bool) {
    && db == db0.(blobs := db.blobs) && db.blobs.Keys == db0.blobs.Keys
    && lost <= seen <= db0.blobs.Keys
    && (forall d :: d in db0.blobs ==> db.blobs[d] == db0.blobs[d] || (d in seen && db.blobs[d] == FixedRow(db0, disk, d)))
    && (forall d :: d in lost ==> IsLost(db0, disk, d))
    && (clean ==> forall d :: d in seen ==> db.blobs[d] == FixedRow(db0, disk, d) && (d in lost <==> IsLost(db0, disk, d)))
  }

  lemma ProgressWeakens(db0: Db, db: Db, disk: map<Digest, Stored>, seen: set<Digest>, lost: set<Digest>,
                        more: set<Digest>, clean: bool)
    requires Progress(db0, db, disk, seen, lost, clean) && seen <= more <= db0.blobs.Keys
    ensures Progress(db0, db, disk, more, lost, false)
  {
  }

  lemma ProgressOne(db0: Db, was: Db, db: Db, disk: map<Digest, Stored>, seen: set<Digest>, lost: set<Digest>,
                    d: Digest, gone: bool, clean: bool, ok: bool)
    requires Progress(db0, was, disk, seen, lost, clean) && d in db0.blobs && d !in seen
    requires db == was || db == FixOne(was, disk, d)
    requires gone ==> IsLost(was, disk, d)
    requires ok ==> db == FixOne(was, disk, d) && gone == IsLost(was, disk, d)
    ensures Progress(db0, db, disk, seen + {d}, if gone then lost + {d} else lost, clean && ok)
  {
    assert was.blobs[d] == db0.blobs[d];
    assert HasPeer(was, d) == HasPeer(db0, d);
    assert FixedRow(was, disk, d) == FixedRow(db0, disk, d);
  }

  /** A page is the next slice of the key space. */
  lemma PageIsSlice(keys: set<nat>, after: nat, limit: nat)
    requires 0 < limit
    ensures var p := Page(keys, after, limit);
            && (p == [] ==> forall k :: k in keys ==> k <= after)
            && (p != [] ==> after < p[|p| - 1]
                            && forall k :: k in keys && k <= p[|p| - 1] <==> k in keys && (k <= after || k in p))
            && (p != [] && |p| < limit ==> forall k :: k in keys ==> k <= p[|p| - 1])
  {
    var p := Page(keys, after, limit);
    PageIsSound(keys, after, limit);
    forall k | k in keys && after < k && (|p| < limit || (p != [] && k <= p[|p| - 1])) ensures k in p {
      PageIsComplete(keys, after, limit, k);
    }
    if p != [] {
      forall k | k in p ensures k <= p[|p| - 1] {
        var i :| 0 <= i < |p| && p[i] == k;
      }
      assert p[|p| - 1] in p;
    }
  }

  /** Every flag agrees with the disk, except on exactly the reported rows. */
  ghost predicate Straight(db: Db, disk: map<Digest, Stored>, unrecoverable: set<Digest>) {
    forall d :: d in db.blobs ==>
      && (d in unrecoverable <==> db.blobs[d].storedLocally && d !in disk && !exists p :: p in db.peers && p.blob == d)
      && (d !in unrecoverable ==> (db.blobs[d].storedLocally <==> d in disk))
  }

  lemma FixedIsStraight(db0: Db, db: Db, disk: map<Digest, Stored>, unrecoverable: set<Digest>)
    requires Progress(db0, db, disk, db0.blobs.Keys, unrecoverable, true)
    ensures Straight(db, disk, unrecoverable)
  {
    forall d | d in db.blobs ensures IsLost(db, disk, d) <==> IsLost(db0, disk, d) {
      assert HasPeer(db, d) == HasPeer(db0, d);
    }
  }

  /** Reconciling a straight database changes nothing and reports the same rows. */
  lemma ReconcileIsIdempotent(db: Db, after: Db, disk: map<Digest, Stored>, first: set<Digest>, second: set<Digest>, clean: bool)
    requires Straight(db, disk, first) && first <= db.blobs.Keys
    requires Progress(db, after, disk, db.blobs.Keys, second, clean)
    ensures after == db
    ensures clean ==> second == first
  {
    forall d | d in db.blobs ensures FixedRow(db, disk, d) == db.blobs[d] {
    }
    assert after.blobs == db.blobs;
  }

  // ---- one cycle -----------------------------------------------------------

  /** A version that a tag points at survives. */
  ghost predicate TagTargetsSurvive(db0: Db, db: Db) {
    forall t :: t in db.tags && VersionKey(t.pkg, db.tags[t].version) in db0.versions ==>
      VersionKey(t.pkg, db.tags[t].version) in db.versions
  }

  /** No row goes that is young, that a file row lists, or that is not local and has a peer. */
  ghost predicate RowsKept(db0: Db, db: Db, grace: Time, now: Time) {
    && (forall d :: d in db0.blobs && 0 < grace && now - grace <= db0.blobs[d].created ==> d in db.blobs)
    && (forall f :: f in db0.files && f.blob in db0.blobs ==> f.blob in db.blobs)
    && (forall p :: p in db0.peers && p.blob in db0.blobs && !db0.blobs[p.blob].storedLocally ==> p.blob in db.blobs)
  }

  /** Every other row is gone. */
  ghost predicate RowsSwept(db: Db, grace: Time, now: Time) {
    forall d :: d in db.blobs ==>
      || (0 < grace && now - grace <= db.blobs[d].created)
      || (exists f :: f in db.files && f.blob == d)
      || (!db.blobs[d].storedLocally && exists p :: p in db.peers && p.blob == d)
  }

  /** Only orphan rows are gone, and the others are as they were. */
  ghost predicate OrphansOnly(db0: Db, db: Db, cutoff: Option<Time>) {
    && db == db0.(blobs := db.blobs)
    && (forall d :: d in db.blobs ==> d in db0.blobs && db.blobs[d] == db0.blobs[d])
    && (forall d :: d in db0.blobs && d !in db.blobs ==> Orphan(db0, d, cutoff))
  }

  ghost predicate NoOrphans(db: Db, cutoff: Option<Time>) {
    forall d :: d in db.blobs ==> !Orphan(db, d, cutoff)
  }

  lemma SameOrphan(a: Db, b: Db, cutoff: Option<Time>, d: Digest)
    requires b == a.(blobs := b.blobs) && d in b.blobs && d in a.blobs && b.blobs[d] == a.blobs[d]
    ensures Orphan(a, d, cutoff) <==> Orphan(b, d, cutoff)
  {
    assert Referenced(a, d) == Referenced(b, d) && HasPeer(a, d) == HasPeer(b, d);
  }

  lemma OrphansChain(a: Db, b: Db, c: Db, cutoff: Option<Time>)
    requires OrphansOnly(a, b, cutoff) && OrphansOnly(b, c, cutoff)
    ensures OrphansOnly(a, c, cutoff)
  {
    forall d | d in a.blobs && d !in c.blobs ensures Orphan(a, d, cutoff) {
      if d in b.blobs {
        SameOrphan(a, b, cutoff, d);
      }
    }
  }

  lemma FewerOrphans(db: Db, after: Db, cutoff: Option<Time>, all: set<Digest>, removed: set<Digest>)
    requires forall d :: d in all <==> d in db.blobs && Orphan(db, d, cutoff)
    requires removed <= all && after == db.(blobs := db.blobs - removed)
    ensures OrphansOnly(db, after, cutoff)
    ensures all <= removed ==> NoOrphans(after, cutoff)
  {
    forall d | d in after.blobs ensures Orphan(db, d, cutoff) <==> Orphan(after, d, cutoff) {
      SameOrphan(db, after, cutoff, d);
    }
  }

  lemma OrphansWent(db0: Db, db: Db, cfg: Config, now: Time)
    requires OrphansOnly(db0, db, RowCutoff(cfg, now))
    ensures RowsKept(db0, db, cfg.grace, now)
    ensures NoOrphans(db, RowCutoff(cfg, now)) ==> RowsSwept(db, cfg.grace, now)
  {
    forall f | f in db0.files ensures Referenced(db0, f.blob) {
    }
    forall p | p in db0.peers ensures HasPeer(db0, p.blob) {
    }
  }

  lemma StillKept(db0: Db, db4: Db, db: Db, grace: Time, now: Time)
    requires RowsKept(db0, db4, grace, now) && forall d :: d in db4.blobs ==> d in db.blobs
    ensures RowsKept(db0, db, grace, now)
  {
  }

  /** A file that has its row, or is inside the grace period and unreferenced. */
  ghost predicate Accounted(db: Db, disk: map<Digest, Stored>, cfg: Config, now: Time, d: Digest) {
    d in disk && (d in db.blobs || (!Referenced(db, d) && 0 < cfg.grace && now - cfg.grace < disk[d].mtime))
  }

  /** One file was given its row, or deleted, or left. */
  ghost predicate JudgedOne(db: Db, disk: map<Digest, Stored>, db': Db, disk': map<Digest, Stored>, cfg: Config, now: Time, d: Digest)
    requires d in disk
  {
    || (db' == db && disk' == disk)
    || (Referenced(db, d) && disk' == disk && db' == db.(blobs := db.blobs[d := Blob(disk[d].size, None, true, now)]))
    || (Expendable(db, disk, cfg, now, d) && db' == db && disk' == disk - {d})
  }

  /** Rows are only added, for listed files that are there; only expendable files are gone. */
  ghost predicate Judging(db0: Db, disk0: map<Digest, Stored>, db: Db, disk: map<Digest, Stored>, cfg: Config, now: Time) {
    && db == db0.(blobs := db.blobs)
    && (forall d :: d in db0.blobs ==> d in db.blobs && db.blobs[d] == db0.blobs[d])
    && (forall d :: d in db.blobs && d !in db0.blobs ==>
          Referenced(db0, d) && d in disk && db.blobs[d] == Blob(disk[d].size, None, true, now))
    && (forall d :: d in disk ==> d in disk0 && disk[d] == disk0[d])
    && (forall d :: d in disk0 && d !in disk ==> Expendable(db0, disk0, cfg, now, d))
  }

  lemma RepairKeeps(db0: Db, disk0: map<Digest, Stored>, was: Db, disk: map<Digest, Stored>, db: Db, cfg: Config, now: Time, d: Digest)
    requires Judging(db0, disk0, was, disk, cfg, now) && d in disk && d !in was.blobs && Referenced(was, d)
    requires db == was.(blobs := was.blobs[d := Blob(disk[d].size, None, true, now)])
    ensures Judging(db0, disk0, db, disk, cfg, now)
  {
    assert Referenced(db0, d);
  }

  lemma UnlinkKeeps(db0: Db, disk0: map<Digest, Stored>, db: Db, was: map<Digest, Stored>, disk: map<Digest, Stored>,
                    cfg: Config, now: Time, d: Digest)
    requires Judging(db0, disk0, db, was, cfg, now) && Expendable(db, was, cfg, now, d) && disk == was - {d}
    ensures Judging(db0, disk0, db, disk, cfg, now)
  {
    assert Referenced(db0, d) == Referenced(db, d) && d !in db0.blobs;
    assert Expendable(db0, disk0, cfg, now, d);
  }

  lemma JudgedKeeps(db0: Db, disk0: map<Digest, Stored>, was: Db, wasDisk: map<Digest, Stored>,
                    db: Db, disk: map<Digest, Stored>, cfg: Config, now: Time, d: Digest)
    requires Judging(db0, disk0, was, wasDisk, cfg, now) && d in wasDisk && d !in was.blobs
    requires JudgedOne(was, wasDisk, db, disk, cfg, now, d)
    ensures Judging(db0, disk0, db, disk, cfg, now)
  {
    if db == was && disk == wasDisk {
    } else if disk == wasDisk {
      RepairKeeps(db0, disk0, was, disk, db, cfg, now, d);
    } else {
      UnlinkKeeps(db0, disk0, db, wasDisk, disk, cfg, now, d);
    }
  }

  lemma AccountedStays(was: Db, wasDisk: map<Digest, Stored>, db: Db, disk: map<Digest, Stored>, cfg: Config, now: Time,
                       d: Digest, e: Digest)
    requires d in wasDisk && JudgedOne(was, wasDisk, db, disk, cfg, now, d)
    requires e in disk && e != d && Accounted(was, wasDisk, cfg, now, e)
    ensures Accounted(db, disk, cfg, now, e)
  {
    assert Referenced(was, e) == Referenced(db, e);
  }

  lemma TodoStays(was: Db, wasDisk: map<Digest, Stored>, db: Db, disk: map<Digest, Stored>, cfg: Config, now: Time,
                  d: Digest, todo: set<Digest>)
    requires d in wasDisk && JudgedOne(was, wasDisk, db, disk, cfg, now, d)
    requires d !in todo && todo <= wasDisk.Keys && todo !! was.blobs.Keys
    ensures todo <= disk.Keys && todo !! db.blobs.Keys
  {
  }

  /** No file goes that is young, that a file row lists, or that has its row in the end. */
  ghost predicate FilesKept(disk0: map<Digest, Stored>, db: Db, disk: map<Digest, Stored>, grace: Time, now: Time) {
    && (forall d :: d in disk ==> d in disk0 && disk[d] == disk0[d])
    && (forall d :: d in disk0 && 0 < grace && now - grace < disk0[d].mtime ==> d in disk)
    && (forall f :: f in db.files && f.blob in disk0 ==> f.blob in disk)
    && (forall d :: d in disk0 && d in db.blobs ==> d in disk)
  }

  lemma FilesWent(db4: Db, disk0: map<Digest, Stored>, db: Db, disk: map<Digest, Stored>, cfg: Config, now: Time)
    requires forall d :: d in disk ==> d in disk0 && disk[d] == disk0[d]
    requires forall d :: d in disk0 && d !in disk ==> Expendable(db4, disk0, cfg, now, d)
    requires db.files == db4.files && forall d :: d in db.blobs && d !in db4.blobs ==> d in disk
    ensures FilesKept(disk0, db, disk, cfg.grace, now)
  {
    forall f | f in db4.files ensures Referenced(db4, f.blob) {
    }
  }

  /** What a surviving tag reaches keeps its row and its file rows. */
  ghost predicate ReachedIntact(db1: Db, db: Db) {
    forall v :: TagLive(db1, v) ==>
      && v in db1.versions && v in db.versions && db.versions[v] == db1.versions[v]
      && (forall d :: FileRow(v, d) in db.files <==> FileRow(v, d) in db1.files)
  }

  /** What one cycle may not damage. */
  ghost predicate CycleSafe(db0: Db, disk0: map<Digest, Stored>, db: Db, disk: map<Digest, Stored>) {
    && (forall t :: t in db.tags ==> t in db0.tags && db.tags[t] == db0.tags[t])
    && ReachedIntact(db0.(tags := db.tags), db)
    && ListedVersionsSurvive(db0, db) && TagTargetsSurvive(db0, db)
    && (forall f :: f in db.files && f.blob in db0.blobs && f.blob in disk0 ==>
          f.blob in db.blobs && f.blob in disk && disk[f.blob] == disk0[f.blob])
  }

  /** When each phase of a cycle read the clock. */
  datatype Clocks = Clocks(tags: Time, prune: Time, peers: Time, rows: Time, files: Time)

  /** Only tags that retention drops are gone, and no more than the cap. */
  ghost predicate TagsSafe(db0: Db, db: Db, cfg: Config, t1: Time) {
    && (forall t :: t in db.tags ==> t in db0.tags && db.tags[t] == db0.tags[t])
    && db0.tags.Keys - db.tags.Keys <= Doomed(db0, cfg.policyOf, t1)
    && (0 < cfg.tagsPerCycle ==> |db0.tags.Keys - db.tags.Keys| <= cfg.tagsPerCycle)
  }

  lemma TargetsAreLive(db1: Db, db: Db)
    requires db.tags == db1.tags && forall v :: TagLive(db1, v) ==> v in db.versions
    ensures TagTargetsSurvive(db1, db)
  {
    forall t | t in db.tags && VersionKey(t.pkg, db.tags[t].version) in db1.versions
      ensures VersionKey(t.pkg, db.tags[t].version) in db.versions
    {
      var v := VersionKey(t.pkg, db.tags[t].version);
      assert Tagged(db1, v);
      assert TagTraces(db1, [v], v);
    }
  }

  /** Every version a surviving tag reaches is there, and versions went only with their file rows. */
  ghost predicate VersionsSafe(db1: Db, db: Db) {
    && Thinned(db1, db) && (forall v :: TagLive(db1, v) ==> v in db.versions)
    && ListedVersionsSurvive(db1, db) && TagTargetsSurvive(db1, db)
  }

  /** What the first phases keep, whatever fails. */
  ghost predicate TablesSafe(db0: Db, db: Db, cfg: Config, t1: Time) {
    db.blobs == db0.blobs && TagsSafe(db0, db, cfg, t1) && VersionsSafe(db0.(tags := db.tags), db)
  }

  /** What the first phases remove when nothing fails. */
  ghost predicate TablesSwept(db0: Db, db: Db, cfg: Config, t1: Time, t2: Time, t3: Time) {
    && (cfg.tagsPerCycle <= 0 ==> db.tags == db0.tags - Doomed(db0, cfg.policyOf, t1))
    && (0 < cfg.tagsPerCycle ==>
          |db0.tags.Keys - db.tags.Keys| == Minimum(cfg.tagsPerCycle, |Doomed(db0, cfg.policyOf, t1)|))
    && (0 < cfg.untaggedAge ==> NoneLeft(db0.(tags := db.tags), t2 - cfg.untaggedAge, db))
    && (forall p :: p in db.peers <==> p in db0.peers && t3 - cfg.stalePeerAge <= db0.peers[p])
  }

  lemma TagsWent(db: Db, deleted: set<TagKey>)
    requires deleted <= db.tags.Keys
    ensures db.tags.Keys - (db.tags - deleted).Keys == deleted
  {
  }

  lemma PeersDoNotMatter(a: Db, db2: Db, db: Db)
    requires Thinned(a, db2) && db == db2.(peers := db.peers)
    ensures Thinned(a, db)
  {
  }

  lemma TagsAreSafe(db0: Db, deleted: set<TagKey>, db: Db, cfg: Config, t1: Time)
    requires deleted <= Doomed(db0, cfg.policyOf, t1) && (0 < cfg.tagsPerCycle ==> |deleted| <= cfg.tagsPerCycle)
    requires db.tags == db0.tags - deleted
    ensures TagsSafe(db0, db, cfg, t1)
  {
    TagsWent(db0, deleted);
  }

  lemma VersionsAreSafe(db1: Db, first: Time, rounds: seq<Round>, db2: Db, db: Db)
    requires Rounds(db1, first, rounds) && db2 == LastDb(db1, rounds) && db == db2.(peers := db.peers)
    ensures VersionsSafe(db1, db) && db.tags == db1.tags && db.blobs == db1.blobs
  {
    RoundsAreSafe(db1, first, rounds, db2);
    PeersDoNotMatter(db1, db2, db);
    RoundsKeepListed(db1, first, rounds);
    TargetsAreLive(db1, db);
  }

  lemma TablesAreSafe(db0: Db, deleted: set<TagKey>, rounds: seq<Round>, t1: Time, t2: Time, db2: Db, db: Db, cfg: Config)
    requires deleted <= Doomed(db0, cfg.policyOf, t1) && (0 < cfg.tagsPerCycle ==> |deleted| <= cfg.tagsPerCycle)
    requires Rounds(Without(db0, deleted), t2 - cfg.untaggedAge, rounds) && db2 == LastDb(Without(db0, deleted), rounds)
    requires db == db2.(peers := db.peers)
    ensures TablesSafe(db0, db, cfg, t1)
  {
    VersionsAreSafe(Without(db0, deleted), t2 - cfg.untaggedAge, rounds, db2, db);
    assert db0.(tags := db.tags) == Without(db0, deleted);
    TagsAreSafe(db0, deleted, db, cfg, t1);
  }

  lemma TablesAreSwept(db0: Db, deleted: set<TagKey>, rounds: seq<Round>, db2: Db, db: Db, cfg: Config, t1: Time, t2: Time, t3: Time)
    requires deleted <= Doomed(db0, cfg.policyOf, t1)
    requires cfg.tagsPerCycle <= 0 ==> deleted == Doomed(db0, cfg.policyOf, t1)
    requires 0 < cfg.tagsPerCycle ==> |deleted| == Minimum(cfg.tagsPerCycle, |Doomed(db0, cfg.policyOf, t1)|)
    requires Rounds(Without(db0, deleted), t2 - cfg.untaggedAge, rounds) && db2 == LastDb(Without(db0, deleted), rounds)
    requires db == db2.(peers := db.peers)
    requires 0 < cfg.untaggedAge ==> EndsShort(rounds)
    requires forall p :: p in db.peers <==> p in db2.peers && t3 - cfg.stalePeerAge <= db2.peers[p]
    ensures TablesSwept(db0, db, cfg, t1, t2, t3)
  {
    var db1 := Without(db0, deleted);
    RoundsAreSafe(db1, t2 - cfg.untaggedAge, rounds, db2);
    assert db0.(tags := db.tags) == db1;
    TagsWent(db0, deleted);
    if 0 < cfg.untaggedAge {
      ShortRoundEnds(db1, t2 - cfg.untaggedAge, rounds, db2);
    }
  }

  lemma GravesAreDug(db0: Db, deleted: set<TagKey>, rounds: seq<Round>, first: Time, db: Db, cfg: Config)
    requires Rounds(Without(db0, deleted), first, rounds) && AllBuried(cfg.local, cfg.untaggedAge, rounds)
    requires db == LastDb(Without(db0, deleted), rounds).(peers := db.peers)
    ensures Graves(db0, first, db, cfg.local, cfg.untaggedAge)
  {
    RoundsBury(Without(db0, deleted), first, rounds, cfg.local, cfg.untaggedAge);
  }

  /**
   After a cycle without failures a pruned manifest of an owned repository has its tombstone, unless
   that was already due for deletion at the cycle's end.
   */
  ghost predicate Marked(db0: Db, db: Db, cfg: Config, at: Clocks) {
    forall v :: v in db0.versions && v !in db.versions
                && cfg.local != 0 && v.pkg in db0.packages && db0.packages[v.pkg].owner == cfg.local ==>
                  var t := TombKey(db0.packages[v.pkg].name, v.digest);
                  || t in db.tombs
                  || (t in db0.tombs && db0.tombs[t].deleted < at.files - cfg.tombAge)
                  || at.prune < at.files - cfg.tombAge
  }

  lemma GravesAreMarked(db0: Db, db3: Db, db: Db, cfg: Config, at: Clocks)
    requires Graves(db0, at.prune - cfg.untaggedAge, db3, cfg.local, cfg.untaggedAge)
    requires db == db3.(blobs := db.blobs, tombs := db.tombs)
    requires forall t :: t in db3.tombs ==> (t in db.tombs <==> at.files - cfg.tombAge <= db3.tombs[t].deleted)
    ensures Marked(db0, db, cfg, at)
  {
    forall v | v in db0.versions && v !in db.versions
               && cfg.local != 0 && v.pkg in db0.packages && db0.packages[v.pkg].owner == cfg.local
      ensures TombKey(db0.packages[v.pkg].name, v.digest) in db3.tombs
    {
      assert Buries(db0.packages, cfg.local, v, TombKey(db0.packages[v.pkg].name, v.digest));
    }
  }

  /** The later phases touch none of it. */
  lemma StillSwept(db0: Db, db3: Db, db: Db, cfg: Config, t1: Time, t2: Time, t3: Time)
    requires TablesSwept(db0, db3, cfg, t1, t2, t3) && db == db3.(blobs := db.blobs, tombs := db.tombs)
    ensures TablesSwept(db0, db, cfg, t1, t2, t3)
  {
  }

  /** What a cycle without failures leaves behind. */
  ghost predicate Clean(db: Db, disk: map<Digest, Stored>, cfg: Config, rowsAt: Time, filesAt: Time,
                        unrecoverable: set<Digest>) {
    && (forall d :: d in disk && d !in db.blobs ==> 0 < cfg.grace && filesAt - cfg.grace < disk[d].mtime)
    && (forall f :: f in db.files && f.blob in disk ==> f.blob in db.blobs)
    && (forall d :: d in db.blobs && (0 < cfg.grace ==> db.blobs[d].created < rowsAt - cfg.grace) ==>
          (exists f :: f in db.files && f.blob == d) || exists p :: p in db.peers && p.blob == d)
    && (forall t :: t in db.tombs ==> filesAt - cfg.tombAge <= db.tombs[t].deleted)
    && Straight(db, disk, unrecoverable)
  }

  /** A blob that some file row lists and that had its row and its bytes keeps both. */
  ghost predicate ListedSurvive(db0: Db, disk0: map<Digest, Stored>, db: Db, disk: map<Digest, Stored>) {
    forall f :: f in db0.files && f.blob in db0.blobs && f.blob in disk0 ==>
      f.blob in db.blobs && f.blob in disk && disk[f.blob] == disk0[f.blob]
  }

  lemma BlobsSurvive(db3: Db, disk0: map<Digest, Stored>, db4: Db, disk: map<Digest, Stored>, db5: Db, db6: Db)
    requires db4.files == db3.files && db5.files == db3.files
    requires forall d :: d in db3.blobs && d !in db4.blobs ==> !Referenced(db3, d)
    requires forall d :: d in db4.blobs ==> d in db5.blobs
    requires forall d :: d in disk ==> d in disk0 && disk[d] == disk0[d]
    requires forall d :: d in disk0 && d !in disk ==> d !in db4.blobs
    requires db6.blobs.Keys == db5.blobs.Keys
    ensures ListedSurvive(db3, disk0, db6, disk)
  {
    forall f | f in db3.files ensures Referenced(db3, f.blob) {
    }
  }

  lemma ReachedIsIntact(db1: Db, db: Db)
    requires Thinned(db1, db) && forall v :: TagLive(db1, v) ==> v in db.versions
    ensures ReachedIntact(db1, db)
  {
    forall v | TagLive(db1, v) ensures v in db1.versions {
      var p :| TagTraces(db1, p, v);
    }
  }

  lemma TagsDoNotList(db0: Db, db1: Db, db: Db)
    requires db1 == db0.(tags := db1.tags) && ListedVersionsSurvive(db1, db) && TagTargetsSurvive(db1, db)
    ensures ListedVersionsSurvive(db0, db) && TagTargetsSurvive(db0, db)
  {
    forall u, v | Lists(db0, u, v) ensures Lists(db1, u, v) {
    }
  }

  lemma CycleIsSafe(db0: Db, disk0: map<Digest, Stored>, db3: Db, db: Db, disk: map<Digest, Stored>, cfg: Config, t1: Time)
    requires TablesSafe(db0, db3, cfg, t1) && db == db3.(blobs := db.blobs, tombs := db.tombs)
    requires ListedSurvive(db3, disk0, db, disk)
    ensures CycleSafe(db0, disk0, db, disk)
  {
    var db1 := db0.(tags := db.tags);
    ReachedIsIntact(db1, db3);
    TagsDoNotList(db0, db1, db3);
    assert ReachedIntact(db1, db);
  }

  // ---- the collector -------------------------------------------------------

  class GarbageCollector {
    const store: Store
    const cfg: Config
    var disk: map<Digest, Stored>

    constructor (s: Store, c: Config, files: map<Digest, Stored>)
      ensures store == s && cfg == c && disk == files
    {
      store, cfg, disk := s, c, files;
    }

    /** Tombstones for the pruned manifests of repositories this node owns; one that exists is kept. */
    method EntombOwned(rows: set<VersionKey>, now: Time) returns (errors: nat)
      modifies store
      ensures store.reliable ==> errors == 0
      ensures store.db == old(store.db).(tombs := store.db.tombs)
      ensures Dug(old(store.db).packages, cfg.local, rows, old(store.db).tombs, store.db.tombs, now)
      ensures errors == 0 ==> AllDug(old(store.db).packages, cfg.local, rows, store.db.tombs)
    {
      errors := 0;
      var todo := rows;
      ghost var db0 := store.db;
      while todo != {}
        invariant store.reliable ==> errors == 0
        invariant todo <= rows && store.db == db0.(tombs := store.db.tombs)
        invariant Dug(db0.packages, cfg.local, rows, db0.tombs, store.db.tombs, now)
        invariant errors == 0 ==> AllDug(db0.packages, cfg.local, rows - todo, store.db.tombs)
        decreases |todo|
      {
        var r :| r in todo;
        todo := todo - {r};
        if r.pkg in store.db.packages && cfg.local != 0 && store.db.packages[r.pkg].owner == cfg.local {
          var ok := store.Attempt();
          var t := TombKey(store.db.packages[r.pkg].name, r.digest);
          assert Buries(db0.packages, cfg.local, r, t);
          if ok {
            store.db := Entomb(store.db, t, cfg.local, now);
          } else {
            errors := errors + 1;
          }
        }
      }
      assert rows - todo == rows;
    }

    /** One PruneUntaggedManifests transaction. */
    method PruneBatch(cutoff: Time, limit: nat) returns (rows: set<VersionKey>)
      requires 0 < limit
      modifies store
      ensures store.db == DropVersions(old(store.db), rows)
      ensures |rows| <= limit && (rows != {} ==> |store.db.versions| < |old(store.db).versions|)
      ensures Selective(old(store.db), cutoff, rows) && (|rows| < limit ==> Exhaustive(old(store.db), cutoff, rows))
    {
      ghost var was := store.db;
      var all := set v | v in store.db.versions && Prunable(store.db, cutoff, v);
      rows := Select(all, limit);
      store.db := DropVersions(store.db, rows);
      assert store.db.versions.Keys == was.versions.Keys - rows;
      SubsetSize(rows, was.versions.Keys);
      SubsetSize(rows, all);
      BatchIsSelective(was, cutoff, rows);
    }

    /** One batch and its tombstones. */
    method PruneRound(now: Time, limit: nat) returns (pruned: nat, errors: nat, ghost r: Round)
      requires 0 < limit
      modifies store
      ensures store.reliable ==> errors == 0
      ensures RoundOk(r) && r.before == old(store.db) && r.cutoff == now - cfg.untaggedAge && r.after == store.db
      ensures pruned <= limit && (0 < pruned ==> |store.db.versions| < |old(store.db).versions|)
      ensures pruned < limit ==> TookAll(r.before, r.cutoff, r.gone)
      ensures errors == 0 ==> Buried(cfg.local, cfg.untaggedAge, r)
    {
      ghost var was := store.db;
      var rows := PruneBatch(now - cfg.untaggedAge, limit);
      ghost var mid := store.db;
      errors := EntombOwned(rows, now);
      pruned := |rows|;
      r := Round(was, now - cfg.untaggedAge, rows, store.db);
      RoundIsOk(was, now - cfg.untaggedAge, rows, mid, store.db, cfg.local, cfg.untaggedAge);
    }

    /**
     pruneUntaggedManifests: rounds until one is short; each reads the clock again. RoundsAreSafe
     and ShortRoundEnds say what such a sequence of rounds amounts to.
     */
    method PruneUntagged(now: Time) returns (errors: nat, ghost rounds: seq<Round>)
      modifies store
      ensures store.reliable ==> errors == 0
      ensures Rounds(old(store.db), now - cfg.untaggedAge, rounds) && LastDb(old(store.db), rounds) == store.db
      ensures errors == 0 && 0 < cfg.untaggedAge ==> EndsShort(rounds)
      ensures errors == 0 ==> AllBuried(cfg.local, cfg.untaggedAge, rounds)
      ensures cfg.untaggedAge <= 0 ==> rounds == []
    {
      errors, rounds := 0, [];
      ghost var db0, first := store.db, now - cfg.untaggedAge;
      if cfg.untaggedAge <= 0 {
        return;
      }
      var limit := BatchSize(cfg.untaggedBatch);
      var clock := now;
      while true
        invariant store.reliable ==> errors == 0
        invariant Rounds(db0, first, rounds) && LastDb(db0, rounds) == store.db && LastCutoff(first, rounds) <= clock - cfg.untaggedAge
        invariant errors == 0 ==> AllBuried(cfg.local, cfg.untaggedAge, rounds)
        decreases |store.db.versions|
      {
        clock := ReadClock(clock);
        var ok := store.Attempt();
        if !ok {
          errors := errors + 1;
          return;
        }
        ghost var round;
        var pruned, errs;
        pruned, errs, round := PruneRound(clock, limit);
        OneMoreRound(db0, first, rounds, round, cfg.local, cfg.untaggedAge);
        rounds := rounds + [round];
        errors := errors + errs;
        if pruned < limit {
          return;
        }
      }
    }

    /** cleanupStalePeerBlobs */
    method StalePeers(now: Time) returns (errors: nat)
      modifies store
      ensures store.reliable ==> errors == 0
      ensures store.db == old(store.db).(peers := store.db.peers)
      ensures forall p :: p in store.db.peers ==> p in old(store.db).peers && store.db.peers[p] == old(store.db).peers[p]
      ensures errors == 0 ==>
                forall p :: p in old(store.db).peers ==>
                  (p in store.db.peers <==> now - cfg.stalePeerAge <= old(store.db).peers[p])
    {
      errors := 0;
      var ok := store.Attempt();
      if !ok {
        errors := 1;
        return;
      }
      var db := store.db;
      store.db := db.(peers := map p | p in db.peers && now - cfg.stalePeerAge <= db.peers[p] :: db.peers[p]);
    }

    /** The deletes of one orphan batch. */
    method DeleteBlobs(digests: set<Digest>) returns (removed: set<Digest>, errors: nat)
      requires digests <= store.db.blobs.Keys
      modifies store
      ensures store.reliable ==> errors == 0
      ensures removed <= digests
      ensures store.db == old(store.db).(blobs := old(store.db).blobs - removed)
      ensures removed != {} ==> |store.db.blobs| < |old(store.db).blobs|
      ensures errors == 0 ==> digests <= removed
    {
      removed, errors := {}, 0;
      ghost var db0 := store.db;
      DeleteNone(db0);
      var todo := digests;
      while todo != {}
        invariant store.reliable ==> errors == 0
        invariant todo <= digests && removed <= digests
        invariant store.db == db0.(blobs := db0.blobs - removed)
        invariant errors == 0 ==> forall d :: d in digests ==> d in todo || d in removed
        decreases |todo|
      {
        var d :| d in todo;
        todo := todo - {d};
        var ok := store.Attempt();
        if ok {
          DeleteOneMore(db0, removed, d);
          store.db := DeleteBlob(store.db, d);
          removed := removed + {d};
        } else {
          errors := errors + 1;
        }
      }
      FewerBlobs(db0, removed);
    }

    /** One batch of cleanupOrphanedBlobMetadata; the phase goes on when it was full and deleted something. */
    method OrphanBatch(cutoff: Option<Time>, limit: nat) returns (more: bool, errors: nat)
      requires 0 < limit
      modifies store
      ensures store.reliable ==> errors == 0
      ensures OrphansOnly(old(store.db), store.db, cutoff)
      ensures more ==> |store.db.blobs| < |old(store.db).blobs|
      ensures errors == 0 && !more ==> NoOrphans(store.db, cutoff)
    {
      errors := 0;
      ghost var was := store.db;
      var ok := store.Attempt();
      if !ok {
        return false, 1;
      }
      var all := set d | d in store.db.blobs && Orphan(store.db, d, cutoff);
      var digests := Select(all, limit);
      if digests == {} {
        FewerOrphans(was, was.(blobs := was.blobs - {}), cutoff, all, {});
        DeleteNone(was);
        return false, 0;
      }
      var removed;
      removed, errors := DeleteBlobs(digests);
      more := removed != {} && |digests| == limit;
      SubsetSize(digests, all);
      FewerOrphans(was, store.db, cutoff, all, removed);
    }

    /** cleanupOrphanedBlobMetadata */
    method OrphanRows(now: Time) returns (errors: nat)
      modifies store
      ensures store.reliable ==> errors == 0
      ensures OrphansOnly(old(store.db), store.db, RowCutoff(cfg, now))
      ensures errors == 0 ==> NoOrphans(store.db, RowCutoff(cfg, now))
      ensures RowsKept(old(store.db), store.db, cfg.grace, now)
      ensures errors == 0 ==> RowsSwept(store.db, cfg.grace, now)
    {
      errors := 0;
      ghost var db0 := store.db;
      while true
        invariant store.reliable ==> errors == 0
        invariant OrphansOnly(db0, store.db, RowCutoff(cfg, now))
        decreases |store.db.blobs|
      {
        ghost var was := store.db;
        var more, errs := OrphanBatch(RowCutoff(cfg, now), BatchSize(cfg.orphanBatch));
        OrphansChain(db0, was, store.db, RowCutoff(cfg, now));
        errors := errors + errs;
        if !more {
          break;
        }
      }
      OrphansWent(db0, store.db, cfg, now);
    }

    /** AllBlobDigests: pages until one is short. */
    method AllBlobDigests(limit: nat) returns (known: set<Digest>)
      requires 0 < limit
      ensures known == store.db.blobs.Keys
    {
      known := {};
      var keys := store.db.blobs.Keys;
      var after: nat := 0;
      while true
        invariant forall d :: d in known <==> d in keys && d <= after
        decreases |Above(keys, after)|
      {
        var batch := Page(keys, after, limit);
        PageIsSound(keys, after, limit);
        PageIsSlice(keys, after, limit);
        known := known + (set d | d in batch);
        if |batch| < limit {
          break;
        }
        var last := batch[|batch| - 1];
        assert last in batch;
        Sweep.AboveShrinks(keys, after, last);
        after := last;
      }
    }

    /** One file without a row. */
    method JudgeFile(d: Digest, now: Time) returns (errors: nat)
      requires d in disk && d !in store.db.blobs
      modifies store, this`disk
      ensures store.reliable ==> errors == 0
      ensures JudgedOne(old(store.db), old(disk), store.db, disk, cfg, now, d)
      ensures errors == 0 && d in disk ==> Accounted(store.db, disk, cfg, now, d)
    {
      errors := 0;
      var ok := store.Attempt();
      if !ok {
        return 1;
      }
      if Referenced(store.db, d) {
        ok := store.Attempt(); // Size
        if !ok {
          return 1;
        }
        ok := store.Attempt(); // PutBlob
        if !ok {
          return 1;
        }
        store.db := PutBlob(store.db, d, disk[d].size, None, true, now);
        return;
      }
      if 0 < cfg.grace {
        ok := store.Attempt(); // ModTime
        if !ok {
          return 1;
        }
        if now - cfg.grace < disk[d].mtime {
          return;
        }
      }
      ok := store.Attempt(); // Delete
      if !ok {
        return 1;
      }
      disk := disk - {d};
    }

    /** cleanupOrphanedBlobFiles: repair what a manifest still lists, delete the rest after the grace period. */
    method OrphanFiles(now: Time) returns (errors: nat)
      modifies store, this`disk
      ensures store.reliable ==> errors == 0
      ensures Judging(old(store.db), old(disk), store.db, disk, cfg, now)
      ensures errors == 0 ==> forall d :: d in disk ==> Accounted(store.db, disk, cfg, now, d)
    {
      errors := 0;
      var ok := store.Attempt();
      if !ok {
        errors := 1;
        return;
      }
      var known := AllBlobDigests(KNOWN_PAGE);
      ghost var db0, disk0 := store.db, disk;
      var todo := disk.Keys - known;
      while todo != {}
        invariant store.reliable ==> errors == 0
        invariant todo <= disk.Keys && todo !! store.db.blobs.Keys
        invariant Judging(db0, disk0, store.db, disk, cfg, now)
        invariant errors == 0 ==> forall d :: d in disk && d !in todo ==> Accounted(store.db, disk, cfg, now, d)
        decreases |todo|
      {
        var d :| d in todo;
        todo := todo - {d};
        ghost var was, wasDisk := store.db, disk;
        var errs := JudgeFile(d, now);
        JudgedKeeps(db0, disk0, was, wasDisk, store.db, disk, cfg, now, d);
        TodoStays(was, wasDisk, store.db, disk, cfg, now, d, todo);
        forall e | e in disk && e != d && Accounted(was, wasDisk, cfg, now, e) ensures Accounted(store.db, disk, cfg, now, e) {
          AccountedStays(was, wasDisk, store.db, disk, cfg, now, d, e);
        }
        errors := errors + errs;
      }
    }

    /** One row of reconcileBlobStorageDrift; the second stat can only confirm the first here. */
    method ReconcileRow(d: Digest) returns (lost: bool, errors: nat)
      requires d in store.db.blobs
      modifies store
      ensures store.reliable ==> errors == 0
      ensures store.db == old(store.db) || store.db == FixOne(old(store.db), disk, d)
      ensures lost ==> IsLost(old(store.db), disk, d)
      ensures errors == 0 ==> store.db == FixOne(old(store.db), disk, d) && lost == IsLost(old(store.db), disk, d)
    {
      lost, errors := false, 0;
      FixOneSame(store.db, disk, d);
      var row := store.db.blobs[d];
      var ok := store.Attempt(); // Exists
      if !ok {
        return false, 1;
      }
      if row.storedLocally && d !in disk {
        ok := store.Attempt(); // HasPeerBlob
        if !ok {
          return false, 1;
        }
        if HasPeer(store.db, d) {
          ok := store.Attempt(); // SetBlobStoredLocally
          if !ok {
            return false, 1;
          }
          store.db := SetLocal(store.db, d, false);
        } else {
          lost := true;
        }
      } else if !row.storedLocally && d in disk {
        ok := store.Attempt(); // SetBlobStoredLocally
        if !ok {
          return false, 1;
        }
        store.db := SetLocal(store.db, d, true);
      }
    }

    method ReconcilePage(ghost db0: Db, ghost seen: set<Digest>, rows: seq<nat>, lost0: set<Digest>, ghost clean: bool)
      returns (lost: set<Digest>, errors: nat, ghost upTo: set<Digest>)
      requires Progress(db0, store.db, disk, seen, lost0, clean)
      requires Ascending(rows) && forall k :: k in rows ==> k in db0.blobs.Keys && k !in seen
      modifies store
      ensures store.reliable ==> errors == 0
      ensures forall k :: k in upTo <==> k in seen || k in rows
      ensures Progress(db0, store.db, disk, upTo, lost, clean && errors == 0)
    {
      lost, errors, upTo := lost0, 0, seen;
      var i := 0;
      while i < |rows|
        invariant store.reliable ==> errors == 0
        invariant 0 <= i <= |rows|
        invariant forall k :: k in upTo <==> k in seen || k in rows[..i]
        invariant Progress(db0, store.db, disk, upTo, lost, clean && errors == 0)
      {
        var d := rows[i];
        assert d in rows;
        ghost var was := store.db;
        assert d !in rows[..i];
        assert rows[..i + 1] == rows[..i] + [d];
        var gone, errs := ReconcileRow(d);
        ProgressOne(db0, was, store.db, disk, upTo, lost, d, gone, clean && errors == 0, errs == 0);
        if gone { lost := lost + {d}; }
        errors := errors + errs;
        upTo := upTo + {d};
        i := i + 1;
      }
      assert rows[..|rows|] == rows;
    }

    /** reconcileBlobStorageDrift: the reported digests are the missing files nobody else holds. */
    method Reconcile(limit: nat) returns (unrecoverable: set<Digest>, errors: nat)
      requires 0 < limit
      modifies store
      ensures store.reliable ==> errors == 0
      ensures Progress(old(store.db), store.db, disk, old(store.db).blobs.Keys, unrecoverable, errors == 0)
    {
      unrecoverable, errors := {}, 0;
      ghost var db0 := store.db;
      var keys := store.db.blobs.Keys;
      var after: nat := 0;
      ghost var seen: set<Digest> := {};
      while true
        invariant store.reliable ==> errors == 0
        invariant forall k :: k in seen <==> k in keys && k <= after
        invariant Progress(db0, store.db, disk, seen, unrecoverable, errors == 0)
        decreases |Above(keys, after)|
      {
        var ok := store.Attempt();
        if !ok {
          errors := errors + 1;
          ProgressWeakens(db0, store.db, disk, seen, unrecoverable, keys, errors == 1);
          return;
        }
        var rows := Page(keys, after, limit);
        PageIsSound(keys, after, limit);
        PageIsSlice(keys, after, limit);
        if rows == [] {
          assert seen == keys;
          break;
        }
        var lost, errs, upTo := ReconcilePage(db0, seen, rows, unrecoverable, errors == 0);
        unrecoverable, errors, seen := lost, errors + errs, upTo;
        var last := rows[|rows| - 1];
        assert last in rows;
        Sweep.AboveShrinks(keys, after, last);
        after := last;
        if |rows| < limit {
          assert seen == keys;
          break;
        }
      }
    }

    /** pruneDeletedManifests */
    method OldTombs(now: Time) returns (errors: nat)
      modifies store
      ensures store.reliable ==> errors == 0
      ensures store.db == old(store.db).(tombs := store.db.tombs)
      ensures forall t :: t in store.db.tombs ==> t in old(store.db).tombs && store.db.tombs[t] == old(store.db).tombs[t]
      ensures errors == 0 ==> forall t :: t in old(store.db).tombs ==>
                (t in store.db.tombs <==> now - cfg.tombAge <= old(store.db).tombs[t].deleted)
    {
      errors := 0;
      var ok := store.Attempt();
      if !ok {
        return 1;
      }
      var db := store.db;
      store.db := db.(tombs := map t | t in db.tombs && now - cfg.tombAge <= db.tombs[t].deleted :: db.tombs[t]);
    }

    /** The phases over tags, manifests and peers. */
    method SweepTables(start: Time) returns (errors: nat, t1: Time, t2: Time, t3: Time)
      requires WellKeyed(store.db)
      modifies store
      ensures store.reliable ==> errors == 0
      ensures start <= t1 <= t2 <= t3
      ensures TablesSafe(old(store.db), store.db, cfg, t1)
      ensures errors == 0 ==> TablesSwept(old(store.db), store.db, cfg, t1, t2, t3)
      ensures errors == 0 ==> Graves(old(store.db), t2 - cfg.untaggedAge, store.db, cfg.local, cfg.untaggedAge)
    {
      ghost var db0 := store.db;
      t1 := ReadClock(start);
      var deleted, e1 := Sweep.RetentionSweep(store, cfg.policyOf, t1, cfg.tagsPerCycle);
      t2 := ReadClock(t1);
      ghost var rounds;
      var e2;
      e2, rounds := PruneUntagged(t2);
      ghost var db2 := store.db;
      t3 := ReadClock(t2);
      var e3 := StalePeers(t3);
      errors := e1 + e2 + e3;
      TablesAreSafe(db0, deleted, rounds, t1, t2, db2, store.db, cfg);
      if errors == 0 {
        TablesAreSwept(db0, deleted, rounds, db2, store.db, cfg, t1, t2, t3);
        GravesAreDug(db0, deleted, rounds, t2 - cfg.untaggedAge, store.db, cfg);
      }
    }

    /** The phases over blob rows, files, drift flags and tombstones. */
    method SweepBlobs(start: Time) returns (errors: nat, t4: Time, t5: Time, unrecoverable: set<Digest>)
      modifies store, this`disk
      ensures store.reliable ==> errors == 0
      ensures start <= t4 <= t5
      ensures store.db == old(store.db).(blobs := store.db.blobs, tombs := store.db.tombs)
      ensures ListedSurvive(old(store.db), old(disk), store.db, disk)
      ensures RowsKept(old(store.db), store.db, cfg.grace, t4)
      ensures FilesKept(old(disk), store.db, disk, cfg.grace, t5)
      ensures errors == 0 ==> Clean(store.db, disk, cfg, t4, t5, unrecoverable)
      ensures errors == 0 ==> forall t :: t in old(store.db).tombs ==>
                (t in store.db.tombs <==> t5 - cfg.tombAge <= old(store.db).tombs[t].deleted)
    {
      ghost var db3, disk0 := store.db, disk;
      t4 := ReadClock(start);
      var e4 := OrphanRows(t4);
      ghost var db4 := store.db;
      t5 := ReadClock(t4);
      var e5 := OrphanFiles(t5);
      ghost var db5 := store.db;
      var lost, e6 := Reconcile(RECONCILE_PAGE);
      ghost var db6 := store.db;
      var e7 := OldTombs(t5);
      unrecoverable := lost;
      errors := e4 + e5 + e6 + e7;
      BlobsSurvive(db3, disk0, db4, disk, db5, db6);
      StillKept(db3, db4, store.db, cfg.grace, t4);
      FilesWent(db4, disk0, store.db, disk, cfg, t5);
      if errors == 0 {
        FixedIsStraight(db5, db6, disk, unrecoverable);
      }
    }

    /**
     collect: one cycle. Whatever fails, nothing a surviving tag reaches is damaged; when
     nothing fails, tags, untagged manifests and peers are swept, and the blob rows, the files
     and the drift flags are settled.
     */
    method Collect(start: Time) returns (errors: nat, at: Clocks, unrecoverable: set<Digest>)
      requires WellKeyed(store.db)
      modifies store, this`disk
      ensures store.reliable ==> errors == 0
      ensures CycleSafe(old(store.db), old(disk), store.db, disk)
      ensures start <= at.tags <= at.prune <= at.peers <= at.rows <= at.files
      ensures 0 < cfg.tagsPerCycle ==> |old(store.db).tags.Keys - store.db.tags.Keys| <= cfg.tagsPerCycle
      ensures old(store.db).tags.Keys - store.db.tags.Keys <= Doomed(old(store.db), cfg.policyOf, at.tags)
      ensures errors == 0 ==> TablesSwept(old(store.db), store.db, cfg, at.tags, at.prune, at.peers)
      ensures RowsKept(old(store.db).(files := store.db.files, peers := store.db.peers), store.db, cfg.grace, at.rows)
      ensures FilesKept(old(disk), store.db, disk, cfg.grace, at.files)
      ensures errors == 0 ==> Marked(old(store.db), store.db, cfg, at)
      ensures errors == 0 ==> Clean(store.db, disk, cfg, at.rows, at.files, unrecoverable)
    {
      ghost var db0, disk0 := store.db, disk;
      var e1, t1, t2, t3 := SweepTables(start);
      ghost var db3 := store.db;
      var e2, t4, t5, lost := SweepBlobs(t3);
      errors, at, unrecoverable := e1 + e2, Clocks(t1, t2, t3, t4, t5), lost;
      CycleIsSafe(db0, disk0, db3, store.db, disk, cfg, t1);
      if errors == 0 {
        StillSwept(db0, db3, store.db, cfg, t1, t2, t3);
        GravesAreMarked(db0, db3, store.db, cfg, at);
      }
    }
  }
}

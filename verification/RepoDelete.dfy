/**
 DeleteOwnedRepositoryWithBlobs: the statements of one transaction, proved against a
 description of which rows go, which stay, and which blobs are purged.
 */
module RepoDelete {
  import opened Base
  import opened Tables

  datatype RepoDeletion = RepoDeletion(name: Name, manifests: set<Digest>, tags: set<Name>, purged: set<Digest>)

  function RepoVersions(db: Db, repo: Id): set<VersionKey> {
    set v | v in db.versions && v.pkg == repo
  }

  function RepoDigests(db: Db, repo: Id): (r: set<Digest>)
    ensures forall d :: d in r <==> VersionKey(repo, d) in db.versions
  {
    var r := set v | v in RepoVersions(db, repo) :: v.digest;
    assert forall d :: VersionKey(repo, d) in db.versions ==> VersionKey(repo, d).digest in r;
    r
  }

  function RepoFiles(db: Db, repo: Id): set<FileRow> {
    set f | f in db.files && f.owner in RepoVersions(db, repo)
  }

  predicate Busy(db: Db, repo: Id, now: Time) {
    exists s :: s in db.sessions && db.sessions[s].repo == repo && now < db.sessions[s].expires
  }

  /** The blob rows the repository lists and no file outside it does. */
  function Purge(db: Db, repo: Id): set<Digest> {
    set f | f in RepoFiles(db, repo) && f.blob in db.blobs
            && !(exists g :: g in db.files && g !in RepoFiles(db, repo) && g.blob == f.blob) :: f.blob
  }

  /** Why a delete does nothing: no such repository, another owner, or an open upload. */
  function Refusal(db: Db, repo: Id, owner: Actor, now: Time): Option<Outcome<Option<RepoDeletion>>> {
    if repo !in db.packages || db.packages[repo].kind != Oci then Some(Ok(None))
    else if db.packages[repo].owner != owner then Some(Err(OwnerMismatch))
    else if Busy(db, repo, now) then Some(Err(RepositoryBusy))
    else None
  }

  function Report(db: Db, repo: Id): RepoDeletion
    requires repo in db.packages
  {
    RepoDeletion(db.packages[repo].name,
                 RepoDigests(db, repo),
                 set t | t in db.tags && t.pkg == repo :: t.name,
                 Purge(db, repo))
  }

  /** All of the repository's rows are gone, everything else is as it was. */
  ghost predicate Deleted(db: Db, repo: Id, owner: Actor, now: Time, after: Db)
    requires repo in db.packages
  {
    var name := db.packages[repo].name;
    && after.packages == db.packages - {repo}
    && after.nextPackage == db.nextPackage && after.nextVersion == db.nextVersion
    && after.versions == db.versions - RepoVersions(db, repo)
    && after.files == db.files - RepoFiles(db, repo)
    && after.tags == (map t | t in db.tags && t.pkg != repo :: db.tags[t])
    && after.sessions == (map s | s in db.sessions && db.sessions[s].repo != repo :: db.sessions[s])
    && after.blobs == db.blobs - Purge(db, repo)
    && after.peers == db.peers
    && (forall t :: t in after.tombs <==> t in db.tombs || (t.repo == name && VersionKey(repo, t.digest) in db.versions))
    && (forall t :: t in after.tombs ==>
          after.tombs[t] == if t in db.tombs then db.tombs[t] else Tomb(owner, now))
  }

  /** deletePackageRowsTx: the purge candidates, and the snapshot without the package's rows. */
  function DeletePackageRows(db: Db, repo: Id): (set<Digest>, Db) {
    var candidates := set f | f in RepoFiles(db, repo) && f.blob in db.blobs :: f.blob;
    var noFiles := db.(files := db.files - RepoFiles(db, repo));
    var noTags := noFiles.(tags := map t | t in db.tags && t.pkg != repo :: db.tags[t]);
    var noVersions := noTags.(versions := db.versions - RepoVersions(db, repo));
    var noSessions := noVersions.(sessions := map s | s in db.sessions && db.sessions[s].repo != repo :: db.sessions[s]);
    (candidates, noSessions.(packages := db.packages - {repo}))
  }

  /** A tombstone for each digest; one that exists is kept. */
  function EntombAll(db: Db, name: Name, digests: set<Digest>, owner: Actor, now: Time): (r: Db)
    ensures r == db.(tombs := r.tombs)
    ensures forall t :: t in r.tombs <==> t in db.tombs || (t.repo == name && t.digest in digests)
    ensures forall t :: t in r.tombs ==> r.tombs[t] == if t in db.tombs then db.tombs[t] else Tomb(owner, now)
  {
    var added := (set d | d in digests :: TombKey(name, d)) - db.tombs.Keys;
    db.(tombs := db.tombs + map t | t in added :: Tomb(owner, now))
  }

  /** The SELECT of purgeUnreferencedBlobs. */
  function Unreferenced(db: Db, candidates: set<Digest>): set<Digest> {
    set d | d in candidates && d in db.blobs && !Referenced(db, d)
  }

  lemma PurgeIsExact(db: Db, repo: Id, tx: Db)
    requires tx.files == db.files - RepoFiles(db, repo) && tx.blobs == db.blobs
    ensures Unreferenced(tx, set f | f in RepoFiles(db, repo) && f.blob in db.blobs :: f.blob) == Purge(db, repo)
  {
    var candidates := set f | f in RepoFiles(db, repo) && f.blob in db.blobs :: f.blob;
    assert forall f :: f in tx.files <==> f in db.files && f !in RepoFiles(db, repo);
    forall d | d in Purge(db, repo) ensures d in Unreferenced(tx, candidates) {
    }
    forall d | d in Unreferenced(tx, candidates) ensures d in Purge(db, repo) {
      var f :| f in RepoFiles(db, repo) && f.blob in db.blobs && f.blob == d;
    }
  }

  lemma TransactionIsExact(db: Db, repo: Id, owner: Actor, now: Time)
    requires repo in db.packages
    ensures
      var tombed := EntombAll(db, db.packages[repo].name, RepoDigests(db, repo), owner, now);
      var rows := DeletePackageRows(tombed, repo);
      var purged := Unreferenced(rows.1, rows.0);
      && purged == Purge(db, repo)
      && Deleted(db, repo, owner, now, rows.1.(blobs := rows.1.blobs - purged))
  {
    var tombed := EntombAll(db, db.packages[repo].name, RepoDigests(db, repo), owner, now);
    assert RepoVersions(tombed, repo) == RepoVersions(db, repo);
    assert RepoFiles(tombed, repo) == RepoFiles(db, repo);
    PurgeIsExact(db, repo, DeletePackageRows(tombed, repo).1);
  }

  /** An upload session of the repository that has not expired. */
  ghost predicate Uploading(db: Db, repo: Id, now: Time) {
    exists k :: k in db.sessions && db.sessions[k].repo == repo && now < db.sessions[k].expires
  }

  /**
   The answer, case by case: nothing to delete, another owner, an open upload, in that order; and
   otherwise a report of exactly what went.
   */
  ghost predicate Answers(db: Db, repo: Id, owner: Actor, now: Time, after: Db, r: Outcome<Option<RepoDeletion>>) {
    if repo !in db.packages || db.packages[repo].kind != Oci then r == Ok(None) && after == db
    else if db.packages[repo].owner != owner then r == Err(OwnerMismatch) && after == db
    else if Uploading(db, repo, now) then r == Err(RepositoryBusy) && after == db
    else
      && r.Ok? && r.value.Some? && repo !in after.packages
      && var report := r.value.value;
         && report.name == db.packages[repo].name
         && (forall d :: d in report.manifests <==> VersionKey(repo, d) in db.versions)
         && (forall n :: n in report.tags <==> TagKey(repo, n) in db.tags)
         && (forall d :: d in report.purged <==> d in db.blobs && d !in after.blobs)
  }

  lemma ReportIsExact(db: Db, repo: Id, owner: Actor, now: Time, after: Db)
    requires Refusal(db, repo, owner, now).None? && Deleted(db, repo, owner, now, after)
    ensures Answers(db, repo, owner, now, after, Ok(Some(Report(db, repo))))
  {
    forall n | TagKey(repo, n) in db.tags ensures n in Report(db, repo).tags {
      assert TagKey(repo, n).name == n;
    }
  }

  /** The transaction works on its own snapshot and commits it whole, or leaves the database alone. */
  method DeleteOwnedRepositoryWithBlobs(store: Store, repo: Id, owner: Actor, now: Time)
    returns (r: Outcome<Option<RepoDeletion>>)
    modifies store
    ensures Refusal(old(store.db), repo, owner, now).Some? ==>
              store.db == old(store.db) && r == Refusal(old(store.db), repo, owner, now).value
    ensures Refusal(old(store.db), repo, owner, now).None? ==>
              Deleted(old(store.db), repo, owner, now, store.db) && r == Ok(Some(Report(old(store.db), repo)))
    ensures Answers(old(store.db), repo, owner, now, store.db, r)
  {
    if repo !in store.db.packages || store.db.packages[repo].kind != Oci {
      return Ok(None);
    }
    if store.db.packages[repo].owner != owner {
      return Err(OwnerMismatch);
    }
    if Busy(store.db, repo, now) {
      return Err(RepositoryBusy);
    }
    var tx := store.db;
    var name := tx.packages[repo].name;
    var digests := RepoDigests(tx, repo);
    var tags := set t | t in tx.tags && t.pkg == repo :: t.name;

    tx := EntombAll(tx, name, digests, owner, now);
    var rows := DeletePackageRows(tx, repo);
    var purged := Unreferenced(rows.1, rows.0);
    tx := rows.1.(blobs := rows.1.blobs - purged);
    TransactionIsExact(store.db, repo, owner, now);
    ReportIsExact(store.db, repo, owner, now, tx);
    store.db := tx;
    r := Ok(Some(RepoDeletion(name, digests, tags, purged)));
  }

  /** The file row belongs to a stored version of the repository. */
  ghost predicate ListsFor(db: Db, repo: Id, f: FileRow) {
    f in db.files && f.owner in db.versions && f.owner.pkg == repo
  }

  /**
   Nothing of the repository is left, nothing else is touched, and a blob row goes exactly when the
   repository listed it and no remaining file row does. A file row whose version is already gone
   belongs to no repository: it stays, and it still protects its blob.
   */
  lemma DeleteIsExact(db: Db, repo: Id, owner: Actor, now: Time, after: Db)
    requires repo in db.packages && Deleted(db, repo, owner, now, after)
    ensures repo !in after.packages
    ensures forall v :: v in after.versions ==> v.pkg != repo
    ensures forall f :: f in after.files <==> f in db.files && !ListsFor(db, repo, f)
    ensures forall t :: t in after.tags ==> t.pkg != repo
    ensures forall v :: v in db.versions && v.pkg != repo ==> v in after.versions && after.versions[v] == db.versions[v]
    ensures forall t :: t in db.tags && t.pkg != repo ==> t in after.tags && after.tags[t] == db.tags[t]
    ensures forall v :: v in db.versions && v.pkg == repo ==> TombKey(db.packages[repo].name, v.digest) in after.tombs
    ensures forall d :: d in db.blobs ==>
              (d !in after.blobs <==> !Referenced(after, d) && exists f :: ListsFor(db, repo, f) && f.blob == d)
    ensures forall d :: d in after.blobs ==> d in db.blobs && after.blobs[d] == db.blobs[d]
    ensures forall t :: t in after.tombs <==> t in db.tombs || (t.repo == db.packages[repo].name && VersionKey(repo, t.digest) in db.versions)
    ensures forall t :: t in after.tombs ==> after.tombs[t] == if t in db.tombs then db.tombs[t] else Tomb(owner, now)
    ensures forall i :: i != repo ==> (i in after.packages <==> i in db.packages) && (i in db.packages ==> after.packages[i] == db.packages[i])
    ensures forall k :: k in after.sessions <==> k in db.sessions && db.sessions[k].repo != repo
    ensures after.peers == db.peers && after.nextPackage == db.nextPackage
  {
    assert forall f :: f in RepoFiles(db, repo) <==> ListsFor(db, repo, f);
    forall d | d in db.blobs
      ensures d !in after.blobs <==> !Referenced(after, d) && exists f :: ListsFor(db, repo, f) && f.blob == d
    {
      if d !in after.blobs {
        assert d in Purge(db, repo);
      } else if f :| ListsFor(db, repo, f) && f.blob == d {
        assert f in RepoFiles(db, repo) && d !in Purge(db, repo);
        var g :| g in db.files && g !in RepoFiles(db, repo) && g.blob == f.blob;
        assert g in after.files;
      }
    }
  }
}

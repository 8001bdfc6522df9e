/**
 The package store: the tables of the database as one committed snapshot, and each
 SQL statement or transaction as a function from snapshot to snapshot. SQLite takes
 the write lock when a transaction begins, so a transaction is one atomic step.
 */
module Tables {
  import opened Base

  type Digest = Key
  type Name = Key

  datatype Kind = Oci | OtherKind

  datatype Package = Package(kind: Kind, name: Name, owner: Actor)

  /** UNIQUE (package_id, version); for OCI the version is the manifest digest. */
  datatype VersionKey = VersionKey(pkg: Id, digest: Digest)

  datatype Version = Version(id: Id, subject: Option<Digest>, source: Option<Actor>, created: Time)

  /** A package_files row: the version lists the blob, or the child manifest. */
  datatype FileRow = FileRow(owner: VersionKey, blob: Digest)

  datatype TagKey = TagKey(pkg: Id, name: Name)

  datatype Tag = Tag(version: Digest, updated: Time)

  datatype Blob = Blob(size: nat, mediaType: Option<nat>, storedLocally: bool, created: Time)

  datatype PeerKey = PeerKey(actor: Actor, blob: Digest)

  datatype TombKey = TombKey(repo: Name, digest: Digest)

  datatype Tomb = Tomb(source: Actor, deleted: Time)

  datatype Session = Session(repo: Id, expires: Time)

  datatype Db = Db(
    packages: map<Id, Package>, nextPackage: Id,
    versions: map<VersionKey, Version>, nextVersion: Id,
    files: set<FileRow>,
    tags: map<TagKey, Tag>,
    blobs: map<Digest, Blob>,
    peers: map<PeerKey, Time>,
    tombs: map<TombKey, Tomb>,
    sessions: map<Key, Session>)

  /** The database handle; what it holds is the last committed snapshot. */
  class Store {
    var db: Db
    const reliable: bool // no database or storage call fails

    constructor (db0: Db, never: bool)
      ensures db == db0 && reliable == never
    {
      db, reliable := db0, never;
    }

    /** Whether the next call succeeds; one that fails has no effect. */
    method Attempt() returns (ok: bool)
      ensures reliable ==> ok
    {
      ok := *;
      if reliable {
        ok := true;
      }
    }
  }

  // ---- queries -------------------------------------------------------------

  /** IsBlobReferenced */
  predicate Referenced(db: Db, d: Digest) {
    exists f :: f in db.files && f.blob == d
  }

  /** HasPeerBlob */
  predicate HasPeer(db: Db, d: Digest) {
    exists p :: p in db.peers && p.blob == d
  }

  predicate Tagged(db: Db, v: VersionKey) {
    exists t :: t in db.tags && t.pkg == v.pkg && db.tags[t].version == v.digest
  }

  /** The WHERE clause of OrphanedBlobs; no cutoff when no grace period is configured. */
  predicate Orphan(db: Db, d: Digest, before: Option<Time>) {
    && d in db.blobs
    && !Referenced(db, d)
    && (db.blobs[d].storedLocally || !HasPeer(db, d))
    && (before.Some? ==> db.blobs[d].created < before.value)
  }

  // ---- single statements ---------------------------------------------------

  /** PutBlob: an existing row keeps its creation time, and `stored_locally` is never cleared. */
  function PutBlob(db: Db, d: Digest, size: nat, mediaType: Option<nat>, local: bool, now: Time): Db {
    var row :=
      if d !in db.blobs then Blob(size, mediaType, local, now)
      else
        var was := db.blobs[d];
        Blob(if local then size else was.size,
             if mediaType.Some? then mediaType else was.mediaType,
             was.storedLocally || local, was.created);
    db.(blobs := db.blobs[d := row])
  }

  function DeleteBlob(db: Db, d: Digest): Db {
    db.(blobs := db.blobs - {d})
  }

  /** SetBlobStoredLocally */
  function SetLocal(db: Db, d: Digest, local: bool): Db {
    if d in db.blobs then db.(blobs := db.blobs[d := db.blobs[d].(storedLocally := local)]) else db
  }

  /** DeletePackageTag */
  function DeleteTag(db: Db, t: TagKey): Db {
    db.(tags := db.tags - {t})
  }

  /** RecordDeletedVersion: ON CONFLICT DO NOTHING. */
  function Entomb(db: Db, t: TombKey, source: Actor, now: Time): Db {
    if t in db.tombs then db else db.(tombs := db.tombs[t := Tomb(source, now)])
  }

  /** DELETE of package_files and package_versions for a set of versions. */
  function DropVersions(db: Db, gone: set<VersionKey>): Db {
    db.(versions := db.versions - gone, files := set f | f in db.files && f.owner !in gone)
  }

  /** DeletePackageVersion: the version, its tags and its files; a missing version changes nothing. */
  function DeleteVersion(db: Db, v: VersionKey): Db {
    if v !in db.versions then db
    else
      var tags := map t | t in db.tags && !(t.pkg == v.pkg && db.tags[t].version == v.digest) :: db.tags[t];
      DropVersions(db.(tags := tags), {v})
  }

  // ---- the transactions of a push ------------------------------------------

  datatype Fault = OwnerMismatch | RepositoryGone | RepositoryBusy

  datatype Outcome<+T> = Ok(value: T) | Err(fault: Fault)

  ghost predicate Named(db: Db, id: Id, kind: Kind, name: Name) {
    id in db.packages && db.packages[id].kind == kind && db.packages[id].name == name
  }

  ghost predicate SameName(p: Package, q: Package) {
    p.kind == q.kind && p.name == q.name
  }

  /** UNIQUE (type, name), and AUTOINCREMENT never reuses an id. */
  ghost predicate WellKeyed(db: Db) {
    && (forall i :: i in db.packages ==> i < db.nextPackage)
    && (forall i, j :: i in db.packages && j in db.packages && SameName(db.packages[i], db.packages[j]) ==> i == j)
  }

  /** GetOrCreatePackage */
  ghost function GetOrCreatePackage(db: Db, kind: Kind, name: Name, owner: Actor): (r: (Db, Outcome<Id>)) {
    if exists i :: Named(db, i, kind, name) then
      var i :| Named(db, i, kind, name);
      if db.packages[i].owner == owner then (db, Ok(i)) else (db, Err(OwnerMismatch))
    else
      var i := db.nextPackage;
      (db.(packages := db.packages[i := Package(kind, name, owner)], nextPackage := i + 1), Ok(i))
  }

  /** putPackageVersion: an existing row keeps its id and its creation time. */
  function PutVersion(db: Db, v: VersionKey, subject: Option<Digest>, source: Option<Actor>, now: Time): (r: Db)
    ensures r == db.(versions := r.versions, nextVersion := r.nextVersion)
    ensures forall w :: w in r.versions <==> w in db.versions || w == v
    ensures forall w :: w in db.versions && w != v ==> r.versions[w] == db.versions[w]
  {
    if v in db.versions then
      db.(versions := db.versions[v := db.versions[v].(subject := subject, source := source)])
    else
      db.(versions := db.versions[v := Version(db.nextVersion, subject, source, now)],
          nextVersion := db.nextVersion + 1)
  }

  /** putBlobReferences: adds a row for each reference, removes none. */
  function PutFiles(db: Db, v: VersionKey, refs: set<Digest>): (r: Db)
    ensures r == db.(files := r.files)
    ensures forall f :: f in r.files <==> f in db.files || (f.owner == v && f.blob in refs)
  {
    db.(files := db.files + (set d | d in refs :: FileRow(v, d)))
  }

  /** PutManifestWithLayers */
  function PutManifestWithLayers(db: Db, v: VersionKey, subject: Option<Digest>, source: Option<Actor>,
                                 refs: set<Digest>, now: Time): (r: (Db, Outcome<()>))
    ensures r.0 == db.(versions := r.0.versions, nextVersion := r.0.nextVersion, files := r.0.files)
    ensures forall f :: f in db.files ==> f in r.0.files
    ensures r.1.Ok? <==> v.pkg in db.packages
    ensures r.1.Err? ==> r.0 == db
  {
    if v.pkg !in db.packages then (db, Err(RepositoryGone))
    else (PutFiles(PutVersion(db, v, subject, source, now), v, refs), Ok(()))
  }

  /** PutPackageTag */
  function PutTag(db: Db, t: TagKey, version: Digest, now: Time): (Db, Outcome<()>) {
    if t.pkg !in db.packages then (db, Err(RepositoryGone))
    else (db.(tags := db.tags[t := Tag(version, now)]), Ok(()))
  }
}

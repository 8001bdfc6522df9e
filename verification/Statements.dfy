/**
 What each statement of the package store does, row by row and column by column: the row it names,
 every other row of that table, and every other table.
 */
module Statements {
  import opened Base
  import opened Tables

  /** The two tables agree on every key but k. */
  ghost predicate SameBut<K(!new), V(!new)>(m: map<K, V>, m': map<K, V>, k: K) {
    forall j :: j != k ==> (j in m <==> j in m') && (j in m ==> m'[j] == m[j])
  }

  /** An upsert of a blob: created once, flagged local for good, resized only by a local store. */
  lemma PutBlobMerges(db: Db, d: Digest, size: nat, mediaType: Option<nat>, local: bool, now: Time)
    ensures var r := PutBlob(db, d, size, mediaType, local, now);
            && r == db.(blobs := r.blobs) && SameBut(db.blobs, r.blobs, d) && d in r.blobs
            && (d !in db.blobs ==> r.blobs[d].created == now && r.blobs[d].size == size && r.blobs[d].mediaType == mediaType
                                   && r.blobs[d].storedLocally == local)
            && (d in db.blobs ==>
                && r.blobs[d].created == db.blobs[d].created
                && (r.blobs[d].storedLocally <==> db.blobs[d].storedLocally || local)
                && (local ==> r.blobs[d].size == size) && (!local ==> r.blobs[d].size == db.blobs[d].size)
                && (mediaType.None? ==> r.blobs[d].mediaType == db.blobs[d].mediaType)
                && (mediaType.Some? ==> r.blobs[d].mediaType == mediaType))
  {
  }

  /** A replayed upsert changes nothing more, also at a later time. */
  lemma PutBlobIsIdempotent(db: Db, d: Digest, size: nat, mediaType: Option<nat>, local: bool, now: Time, later: Time)
    ensures var once := PutBlob(db, d, size, mediaType, local, now);
            PutBlob(once, d, size, mediaType, local, later) == once
  {
    var once := PutBlob(db, d, size, mediaType, local, now);
    assert PutBlob(once, d, size, mediaType, local, later).blobs == once.blobs;
  }

  lemma DeleteBlobTakesOne(db: Db, d: Digest)
    ensures var r := DeleteBlob(db, d);
            r == db.(blobs := r.blobs) && SameBut(db.blobs, r.blobs, d) && d !in r.blobs
  {
  }

  lemma SetLocalFlags(db: Db, d: Digest, local: bool)
    ensures var r := SetLocal(db, d, local);
            && r == db.(blobs := r.blobs) && SameBut(db.blobs, r.blobs, d) && (d in r.blobs <==> d in db.blobs)
            && (d in db.blobs ==> r.blobs[d].storedLocally == local && r.blobs[d].created == db.blobs[d].created
                                  && r.blobs[d].size == db.blobs[d].size && r.blobs[d].mediaType == db.blobs[d].mediaType)
  {
  }

  lemma DeleteTagTakesOne(db: Db, t: TagKey)
    ensures var r := DeleteTag(db, t);
            r == db.(tags := r.tags) && SameBut(db.tags, r.tags, t) && t !in r.tags
  {
  }

  /** A tag is written exactly when its package exists; it points at the version from now on, and no other tag moves. */
  lemma PutTagWritesOne(db: Db, t: TagKey, version: Digest, now: Time)
    ensures var r := PutTag(db, t, version, now);
            && (r.1.Ok? <==> t.pkg in db.packages)
            && (t.pkg !in db.packages ==> r.0 == db && r.1.fault == RepositoryGone)
            && r.0 == db.(tags := r.0.tags) && SameBut(db.tags, r.0.tags, t)
            && (t.pkg in db.packages ==> t in r.0.tags && r.0.tags[t].version == version && r.0.tags[t].updated == now)
  {
  }

  /** Writing a tag and deleting it again restores the tags that were there without it. */
  lemma DeleteUndoesPutTag(db: Db, t: TagKey, version: Digest, now: Time)
    requires t !in db.tags
    ensures DeleteTag(PutTag(db, t, version, now).0, t) == db
  {
    assert DeleteTag(PutTag(db, t, version, now).0, t).tags == db.tags;
  }

  /** The first tombstone stays. */
  lemma EntombWritesOnce(db: Db, t: TombKey, source: Actor, now: Time)
    ensures var r := Entomb(db, t, source, now);
            && r == db.(tombs := r.tombs) && SameBut(db.tombs, r.tombs, t) && t in r.tombs
            && (t in db.tombs ==> r.tombs[t] == db.tombs[t])
            && (t !in db.tombs ==> r.tombs[t].source == source && r.tombs[t].deleted == now)
  {
  }

  lemma DropVersionsTakesThose(db: Db, gone: set<VersionKey>)
    ensures var r := DropVersions(db, gone);
            && r == db.(versions := r.versions, files := r.files)
            && (forall v :: v in r.versions <==> v in db.versions && v !in gone)
            && (forall v :: v in r.versions ==> r.versions[v] == db.versions[v])
            && (forall f :: f in r.files <==> f in db.files && f.owner !in gone)
  {
  }

  /** The version goes with its file rows and with exactly the tags of its package that point at it. */
  lemma DeleteVersionTakesItsOwn(db: Db, v: VersionKey)
    ensures var r := DeleteVersion(db, v);
            && (v !in db.versions ==> r == db)
            && (v in db.versions ==>
                && r == db.(versions := r.versions, files := r.files, tags := r.tags)
                && v !in r.versions && SameBut(db.versions, r.versions, v)
                && (forall f :: f in r.files <==> f in db.files && f.owner != v)
                && (forall t :: t in r.tags <==> t in db.tags && !(t.pkg == v.pkg && db.tags[t].version == v.digest))
                && (forall t :: t in r.tags ==> r.tags[t] == db.tags[t]))
  {
  }

  /** A version keeps its id and its age when it is stored again; its subject and its source are the latest. */
  lemma PutVersionMerges(db: Db, v: VersionKey, subject: Option<Digest>, source: Option<Actor>, now: Time)
    ensures var r := PutVersion(db, v, subject, source, now);
            && r == db.(versions := r.versions, nextVersion := r.nextVersion) && SameBut(db.versions, r.versions, v)
            && v in r.versions && r.versions[v].subject == subject && r.versions[v].source == source
            && (v in db.versions ==> r.versions[v].id == db.versions[v].id && r.versions[v].created == db.versions[v].created
                                     && r.nextVersion == db.nextVersion)
            && (v !in db.versions ==> r.versions[v].id == db.nextVersion && r.versions[v].created == now
                                      && r.nextVersion == db.nextVersion + 1)
  {
  }

  /** The manifest and its references are stored together, exactly when the package exists. */
  lemma PutManifestIsAtomic(db: Db, v: VersionKey, subject: Option<Digest>, source: Option<Actor>, refs: set<Digest>, now: Time)
    ensures var r := PutManifestWithLayers(db, v, subject, source, refs, now);
            && (r.1.Ok? <==> v.pkg in db.packages)
            && (r.1.Err? ==> r.0 == db)
            && (r.1.Ok? ==>
                && r.0 == db.(versions := r.0.versions, nextVersion := r.0.nextVersion, files := r.0.files)
                && SameBut(db.versions, r.0.versions, v)
                && v in r.0.versions && r.0.versions[v].subject == subject && r.0.versions[v].source == source
                && (v in db.versions ==> r.0.versions[v].created == db.versions[v].created)
                && (v !in db.versions ==> r.0.versions[v].created == now)
                && (forall f :: f in r.0.files <==> f in db.files || (f.owner == v && f.blob in refs)))
  {
  }

  /** One package to a name: the owner gets it, anybody else is refused, and only a new name makes a row. */
  lemma GetOrCreateIsExact(db: Db, kind: Kind, name: Name, owner: Actor)
    requires WellKeyed(db)
    ensures var r := GetOrCreatePackage(db, kind, name, owner);
            && (forall i :: i in db.packages && db.packages[i].kind == kind && db.packages[i].name == name ==>
                  && r.0 == db
                  && (db.packages[i].owner == owner ==> r.1 == Ok(i))
                  && (db.packages[i].owner != owner ==> r.1 == Err(OwnerMismatch)))
            && ((forall i :: i in db.packages ==> db.packages[i].kind != kind || db.packages[i].name != name) ==>
                  && r.1 == Ok(db.nextPackage) && r.0 == db.(packages := r.0.packages, nextPackage := db.nextPackage + 1)
                  && SameBut(db.packages, r.0.packages, db.nextPackage)
                  && db.nextPackage in r.0.packages && r.0.packages[db.nextPackage] == Package(kind, name, owner))
  {
    forall i | i in db.packages && db.packages[i].kind == kind && db.packages[i].name == name ensures Named(db, i, kind, name) {
    }
    if j :| Named(db, j, kind, name) {
      assert forall i :: i in db.packages && db.packages[i].kind == kind && db.packages[i].name == name ==>
          SameName(db.packages[i], db.packages[j]);
    }
  }
}

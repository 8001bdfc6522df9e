/**
 pushManifest against everything that can delete. A tagged push is three
 transactions with other writers in between; each transaction is one step here.
 */
module Pushes {
  import opened Base
  import opened Tables
  import opened Prune
  import opened RepoDelete

  /** What the client pushes: a manifest with its references, under a tag. */
  datatype Request = Request(repo: Name, digest: Digest, subject: Option<Digest>, refs: set<Digest>, tag: Name)

  datatype Push =
    | Resolved(id: Id, req: Request) // GetOrCreateRepository returned
    | Stored(id: Id, req: Request)   // PutManifestWithLayers committed
    | Succeeded(id: Id, req: Request)
    | Failed

  datatype State = State(db: Db, clock: Time, local: Actor, pushes: map<nat, Push>)

  datatype Step =
    | Resolve(p: nat, req: Request)
    | Refuse(p: nat)  // a blob or child check failed, or a database call did
    | Store(p: nat)
    | PutTheTag(p: nat)
    | DeleteRepo(repo: Id, owner: Actor)
    | DeleteManifest(v: VersionKey)
    | PruneBatch(cutoff: Time, gone: set<VersionKey>)
    | RetireTag(t: TagKey)
    // the other writers: inbox ingest, pull-through and upstream caching
    | OthersRepo(name: Name, owner: Actor)
    | OthersVersion(v: VersionKey, subject: Option<Digest>, source: Option<Actor>) // the repository is not looked up again
    | OthersFiles(v: VersionKey, refs: set<Digest>)
    | OthersManifest(v: VersionKey, subject: Option<Digest>, source: Option<Actor>, refs: set<Digest>)
    | OthersTag(t: TagKey, digest: Digest)
    | Tick(now: Time)

  ghost function Settle(s: State, p: nat, db: Db, r: Outcome<()>, onOk: Push): State {
    s.(db := db, pushes := s.pushes[p := if r.Ok? then onOk else Failed])
  }

  ghost predicate Next(s: State, step: Step, s': State) {
    match step
    case Resolve(p, req) =>
      && p !in s.pushes
      && var r := GetOrCreatePackage(s.db, Oci, req.repo, s.local);
         s' == s.(db := r.0, pushes := s.pushes[p := if r.1.Ok? then Resolved(r.1.value, req) else Failed])
    case Refuse(p) =>
      p in s.pushes && !s.pushes[p].Succeeded? && s' == s.(pushes := s.pushes[p := Failed])
    case Store(p) =>
      && p in s.pushes && s.pushes[p].Resolved?
      && var id, req := s.pushes[p].id, s.pushes[p].req;
         var r := PutManifestWithLayers(s.db, VersionKey(id, req.digest), req.subject, None, req.refs, s.clock);
         s' == Settle(s, p, r.0, r.1, Stored(id, req))
    case PutTheTag(p) =>
      && p in s.pushes && s.pushes[p].Stored?
      && var id, req := s.pushes[p].id, s.pushes[p].req;
         var r := PutTag(s.db, TagKey(id, req.tag), req.digest, s.clock);
         s' == Settle(s, p, r.0, r.1, Succeeded(id, req))
    case DeleteRepo(repo, owner) =>
      if Refusal(s.db, repo, owner, s.clock).Some? then s' == s
      else s' == s.(db := s'.db) && Deleted(s.db, repo, owner, s.clock, s'.db)
    case DeleteManifest(v) => s' == s.(db := DeleteVersion(s.db, v))
    case PruneBatch(cutoff, gone) => s' == s.(db := s'.db) && Batch(s.db, cutoff, gone, s'.db)
    case RetireTag(t) => s' == s.(db := DeleteTag(s.db, t))
    case OthersRepo(name, owner) => s' == s.(db := GetOrCreatePackage(s.db, Oci, name, owner).0)
    case OthersVersion(v, subject, source) => s' == s.(db := PutVersion(s.db, v, subject, source, s.clock))
    case OthersFiles(v, refs) => s' == s.(db := PutFiles(s.db, v, refs))
    case OthersManifest(v, subject, source, refs) =>
      s' == s.(db := PutManifestWithLayers(s.db, v, subject, source, refs, s.clock).0)
    case OthersTag(t, digest) => s' == s.(db := PutTag(s.db, t, digest, s.clock).0)
    case Tick(now) => s.clock <= now && s' == s.(clock := now)
  }

  ghost predicate TagsHavePackages(db: Db) {
    forall t :: t in db.tags ==> t.pkg in db.packages
  }

  ghost predicate Sound(db: Db) {
    WellKeyed(db) && TagsHavePackages(db)
  }

  lemma FewerPackages(db: Db, after: Db)
    requires WellKeyed(db)
    requires after.nextPackage == db.nextPackage && after.packages.Keys <= db.packages.Keys
    requires forall i :: i in after.packages ==> after.packages[i] == db.packages[i]
    ensures WellKeyed(after)
  {
  }

  lemma ResolveKeepsSound(db: Db, name: Name, owner: Actor)
    requires Sound(db)
    ensures var r := GetOrCreatePackage(db, Oci, name, owner);
            && Sound(r.0)
            && db.nextPackage <= r.0.nextPackage && db.packages.Keys <= r.0.packages.Keys
            && (forall i :: i in r.0.packages && i !in db.packages ==> i == db.nextPackage)
            && (r.1.Ok? ==> r.1.value in r.0.packages)
            && r.0 == db.(packages := r.0.packages, nextPackage := r.0.nextPackage)
  {
    if !exists i :: Named(db, i, Oci, name) {
      assert forall i :: i in db.packages ==> !Named(db, i, Oci, name);
    }
  }

  lemma StoreKeepsSound(db: Db, v: VersionKey, subject: Option<Digest>, source: Option<Actor>, refs: set<Digest>, now: Time)
    requires Sound(db)
    ensures Sound(PutManifestWithLayers(db, v, subject, source, refs, now).0)
  {
    var after := PutManifestWithLayers(db, v, subject, source, refs, now).0;
    assert after.packages == db.packages && after.nextPackage == db.nextPackage && after.tags == db.tags;
  }

  /** Names are unique, ids are not reused, and no tag is without its package. */
  lemma StepKeepsSound(s: State, step: Step, s': State)
    requires Sound(s.db) && Next(s, step, s')
    ensures Sound(s'.db)
    ensures s.db.nextPackage <= s'.db.nextPackage
    ensures forall i :: i in s'.db.packages && i !in s.db.packages ==> s.db.nextPackage <= i
  {
    match step
    case Resolve(p, req) => ResolveKeepsSound(s.db, req.repo, s.local);
    case OthersRepo(name, owner) => ResolveKeepsSound(s.db, name, owner);
    case Refuse(p) =>
    case Store(p) =>
      var id, req := s.pushes[p].id, s.pushes[p].req;
      StoreKeepsSound(s.db, VersionKey(id, req.digest), req.subject, None, req.refs, s.clock);
    case OthersManifest(v, subject, source, refs) => StoreKeepsSound(s.db, v, subject, source, refs, s.clock);
    case Tick(now) =>
    case _ => FewerPackages(s.db, s'.db);
  }

  ghost predicate Holds(db: Db, id: Id, req: Request) {
    var v := VersionKey(id, req.digest);
    v in db.versions && forall d :: d in req.refs ==> FileRow(v, d) in db.files
  }

  lemma RepoDeleteKeepsOthers(db: Db, repo: Id, owner: Actor, now: Time, after: Db, id: Id, req: Request)
    requires repo in db.packages && Deleted(db, repo, owner, now, after) && Holds(db, id, req) && id in after.packages
    ensures Holds(after, id, req)
  {
    var v := VersionKey(id, req.digest);
    assert v !in RepoVersions(db, repo);
    forall d | d in req.refs ensures FileRow(v, d) in after.files {
      assert FileRow(v, d) !in RepoFiles(db, repo);
    }
  }

  lemma DropKeepsOthers(db: Db, gone: set<VersionKey>, id: Id, req: Request)
    requires Holds(db, id, req) && VersionKey(id, req.digest) !in gone
    ensures Holds(DropVersions(db, gone), id, req)
  {
  }

  lemma MoreKeepsHolds(db: Db, after: Db, id: Id, req: Request)
    requires Holds(db, id, req) && db.versions.Keys <= after.versions.Keys
    requires forall f :: f in db.files ==> f in after.files
    ensures Holds(after, id, req)
  {
  }

  lemma PutVersionOnlyAdds(db: Db, v: VersionKey, subject: Option<Digest>, source: Option<Actor>, now: Time)
    ensures var mid := PutVersion(db, v, subject, source, now);
            mid.files == db.files && db.versions.Keys <= mid.versions.Keys
  {
  }

  lemma StoreKeepsOthers(db: Db, v: VersionKey, subject: Option<Digest>, source: Option<Actor>, refs: set<Digest>,
                         now: Time, id: Id, req: Request)
    requires Holds(db, id, req)
    ensures Holds(PutManifestWithLayers(db, v, subject, source, refs, now).0, id, req)
  {
    PutVersionOnlyAdds(db, v, subject, source, now);
    var mid := PutVersion(db, v, subject, source, now);
    MoreKeepsHolds(db, mid, id, req);
    MoreKeepsHolds(mid, PutFiles(mid, v, refs), id, req);
  }

  lemma StepKeepsHolds(s: State, step: Step, s': State, id: Id, req: Request)
    requires Next(s, step, s') && Holds(s.db, id, req) && id in s'.db.packages
    requires step.DeleteManifest? ==> step.v != VersionKey(id, req.digest)
    requires step.PruneBatch? ==> VersionKey(id, req.digest) !in step.gone
    ensures Holds(s'.db, id, req)
  {
    match step
    case Resolve(p, other) =>
    case Refuse(p) =>
    case Store(p) =>
      var i, other := s.pushes[p].id, s.pushes[p].req;
      StoreKeepsOthers(s.db, VersionKey(i, other.digest), other.subject, None, other.refs, s.clock, id, req);
    case OthersManifest(v, subject, source, refs) => StoreKeepsOthers(s.db, v, subject, source, refs, s.clock, id, req);
    case OthersVersion(v, subject, source) =>
      PutVersionOnlyAdds(s.db, v, subject, source, s.clock);
      MoreKeepsHolds(s.db, s'.db, id, req);
    case OthersFiles(v, refs) => MoreKeepsHolds(s.db, s'.db, id, req);
    case OthersRepo(name, owner) =>
    case OthersTag(t, digest) =>
    case PutTheTag(p) =>
    case DeleteRepo(repo, owner) =>
      if Refusal(s.db, repo, owner, s.clock).None? {
        RepoDeleteKeepsOthers(s.db, repo, owner, s.clock, s'.db, id, req);
      }
    case DeleteManifest(w) => DropKeepsOthers(s.db, {w}, id, req);
    case PruneBatch(cutoff, gone) => DropKeepsOthers(s.db, gone, id, req);
    case RetireTag(t) =>
    case Tick(now) =>
  }

  // ---- one push ------------------------------------------------------------

  /** The package id of a push under way has been handed out. */
  ghost predicate Known(s: State, p: nat) {
    && Sound(s.db)
    && (p in s.pushes && (s.pushes[p].Resolved? || s.pushes[p].Stored?) ==> s.pushes[p].id < s.db.nextPackage)
  }

  lemma StepKeepsKnown(s: State, step: Step, s': State, p: nat)
    requires Known(s, p) && Next(s, step, s')
    ensures Known(s', p)
  {
    StepKeepsSound(s, step, s');
    if step.Resolve? && step.p == p {
      ResolveKeepsSound(s.db, step.req.repo, s.local);
    }
  }

  ghost predicate IsStored(s: State, p: nat, id: Id, req: Request) {
    p in s.pushes && s.pushes[p] == Stored(id, req)
  }

  /** The push is past its second transaction, its package is there, and its manifest is not. */
  ghost predicate Missing(s: State, p: nat, id: Id, req: Request) {
    IsStored(s, p, id, req) && id in s.db.packages && !Holds(s.db, id, req)
  }

  /** The step deletes the manifest, by its digest or because it is prunable. */
  ghost predicate Drops(s: State, step: Step, v: VersionKey) {
    || step == DeleteManifest(v)
    || (step.PruneBatch? && v in step.gone && Prunable(s.db, step.cutoff, v))
  }

  lemma DropsIsMissing(s: State, step: Step, s': State, id: Id, req: Request)
    requires Next(s, step, s') && Holds(s.db, id, req) && Drops(s, step, VersionKey(id, req.digest))
    ensures !Holds(s'.db, id, req) && s'.pushes == s.pushes && s'.db.packages == s.db.packages
  {
  }

  lemma StepIsStored(s: State, step: Step, s': State, p: nat, id: Id, req: Request)
    requires Next(s, step, s') && IsStored(s', p, id, req) && !IsStored(s, p, id, req)
    ensures step == Store(p) && Holds(s'.db, id, req)
  {
  }

  /** A push comes to miss its manifest exactly by a deletion of that manifest while it is stored and not yet tagged. */
  lemma StepMisses(s: State, step: Step, s': State, p: nat, id: Id, req: Request)
    requires Known(s, p) && Next(s, step, s')
    ensures Missing(s', p, id, req) <==>
              || (Missing(s, p, id, req) && Missing(s', p, id, req))
              || DropsOwn(s, step, p, id, req)
  {
    var v := VersionKey(id, req.digest);
    if DropsOwn(s, step, p, id, req) {
      DropsIsMissing(s, step, s', id, req);
    }
    if Missing(s', p, id, req) {
      if !IsStored(s, p, id, req) {
        StepIsStored(s, step, s', p, id, req);
      } else {
        StepKeepsSound(s, step, s');
        if Holds(s.db, id, req) && !Drops(s, step, v) {
          StepKeepsHolds(s, step, s', id, req);
        }
      }
    }
  }

  /** The whole of a tagged push is in the database, under one package id. */
  ghost predicate Landed(db: Db, id: Id, req: Request) {
    && id in db.packages
    && Holds(db, id, req)
    && TagKey(id, req.tag) in db.tags && db.tags[TagKey(id, req.tag)].version == req.digest
  }

  ghost predicate Run(ss: seq<State>, steps: seq<Step>) {
    && |ss| == |steps| + 1
    && forall i :: 0 <= i < |steps| ==> Next(ss[i], steps[i], ss[i + 1])
  }

  lemma {:induction false} AlwaysKnown(ss: seq<State>, steps: seq<Step>, n: nat, p: nat)
    requires Run(ss, steps) && n < |ss| && Known(ss[0], p)
    ensures Known(ss[n], p)
  {
    if n == 0 {
    } else {
      AlwaysKnown(ss, steps, n - 1, p);
      StepKeepsKnown(ss[n - 1], steps[n - 1], ss[n], p);
    }
  }

  /** Step k deleted the manifest of push p, stored and not yet tagged, and up to n nobody has stored it again. */
  ghost predicate DroppedAt(ss: seq<State>, steps: seq<Step>, k: nat, n: nat, p: nat, id: Id, req: Request)
    requires |ss| == |steps| + 1 && n <= |steps|
  {
    && k < n && IsStored(ss[k], p, id, req) && Drops(ss[k], steps[k], VersionKey(id, req.digest))
    && forall j :: k < j <= n ==> !Holds(ss[j].db, id, req)
  }

  ghost predicate DropsOwn(s: State, step: Step, p: nat, id: Id, req: Request) {
    && IsStored(s, p, id, req) && id in s.db.packages && Holds(s.db, id, req)
    && Drops(s, step, VersionKey(id, req.digest))
  }

  lemma RunStepMisses(ss: seq<State>, steps: seq<Step>, i: nat, p: nat, id: Id, req: Request)
    requires Run(ss, steps) && i < |steps| && Known(ss[0], p)
    ensures Missing(ss[i + 1], p, id, req) <==>
              (Missing(ss[i], p, id, req) && Missing(ss[i + 1], p, id, req)) || DropsOwn(ss[i], steps[i], p, id, req)
  {
    AlwaysKnown(ss, steps, i, p);
    StepMisses(ss[i], steps[i], ss[i + 1], p, id, req);
  }

  lemma MissingTrace(ss: seq<State>, steps: seq<Step>, p: nat, id: Id, req: Request)
    returns (on: seq<bool>, did: seq<bool>, undid: seq<bool>)
    requires Run(ss, steps) && Known(ss[0], p)
    ensures |on| == |ss| && |did| == |undid| == |steps|
    ensures forall i :: 0 <= i < |ss| ==> on[i] == Missing(ss[i], p, id, req)
    ensures forall i :: 0 <= i < |steps| ==> did[i] == DropsOwn(ss[i], steps[i], p, id, req)
    ensures forall i :: 0 <= i < |steps| ==> (on[i + 1] <==> (on[i] && !undid[i]) || did[i])
  {
    on := seq(|ss|, i requires 0 <= i < |ss| => Missing(ss[i], p, id, req));
    did := seq(|steps|, i requires 0 <= i < |steps| => DropsOwn(ss[i], steps[i], p, id, req));
    undid := seq(|steps|, i requires 0 <= i < |steps| => !Missing(ss[i + 1], p, id, req));
    forall i | 0 <= i < |steps| ensures on[i + 1] <==> (on[i] && !undid[i]) || did[i] {
      RunStepMisses(ss, steps, i, p, id, req);
    }
  }

  lemma MissingIff(ss: seq<State>, steps: seq<Step>, n: nat, p: nat, id: Id, req: Request)
    requires Run(ss, steps) && n <= |steps| && Known(ss[0], p) && !Missing(ss[0], p, id, req)
    requires IsStored(ss[n], p, id, req) && id in ss[n].db.packages
    ensures !Holds(ss[n].db, id, req) <==> exists k :: DroppedAt(ss, steps, k, n, p, id, req)
  {
    var on, did, undid := MissingTrace(ss, steps, p, id, req);
    GoesBack(on, did, undid, n);
    if on[n] {
      var k: nat :| Since(did, undid, k, n);
      forall j | k < j <= n ensures !Holds(ss[j].db, id, req) {
        HoldsSince(on, did, undid, k, n, j);
      }
      assert DroppedAt(ss, steps, k, n, p, id, req);
    }
  }

  /**
   In every interleaving of pushes with repository deletes, manifest deletes, pruning, other pushes
   and the other writers, the last transaction of a tagged push fails and changes nothing when its
   repository has vanished. Otherwise it reports success, and then package, version, file and tag
   rows are all present under one id, unless its manifest was deleted or pruned after it was stored
   and before it was tagged: it is missing if and only if that happened and nobody stored it again.
   */
  lemma NoSilentlyLostPush(ss: seq<State>, steps: seq<Step>, n: nat, p: nat, id: Id, req: Request)
    requires Run(ss, steps) && n < |steps| && Known(ss[0], p) && !Missing(ss[0], p, id, req)
    requires steps[n] == PutTheTag(p) && IsStored(ss[n], p, id, req)
    ensures p in ss[n + 1].pushes
    ensures if id in ss[n].db.packages
            then && ss[n + 1].pushes[p] == Succeeded(id, req)
                 && (!Landed(ss[n + 1].db, id, req) <==> exists k :: DroppedAt(ss, steps, k, n, p, id, req))
            else ss[n + 1].pushes[p] == Failed && ss[n + 1].db == ss[n].db
  {
    assert Next(ss[n], steps[n], ss[n + 1]);
    if id in ss[n].db.packages {
      MissingIff(ss, steps, n, p, id, req);
      assert Holds(ss[n + 1].db, id, req) <==> Holds(ss[n].db, id, req);
    }
  }

  /** No tag row ever belongs to a missing package, with the inbox and the caches writing too. */
  lemma {:induction false} TagsAlwaysHavePackages(ss: seq<State>, steps: seq<Step>, n: nat)
    requires Run(ss, steps) && n < |ss| && Sound(ss[0].db)
    ensures Sound(ss[n].db)
  {
    if n == 0 {
    } else {
      TagsAlwaysHavePackages(ss, steps, n - 1);
      StepKeepsSound(ss[n - 1], steps[n - 1], ss[n]);
    }
  }

  // ---- tags ----------------------------------------------------------------

  /** The step writes the tag: the last transaction of a push, or another writer's, while the package exists. */
  ghost predicate WritesTag(s: State, step: Step, t: TagKey, g: Tag) {
    && t.pkg in s.db.packages && g.updated == s.clock
    && (|| step == OthersTag(t, g.version)
        || (step.PutTheTag? && step.p in s.pushes && s.pushes[step.p].Stored?
            && t == TagKey(s.pushes[step.p].id, s.pushes[step.p].req.tag) && g.version == s.pushes[step.p].req.digest))
  }

  /** The step deletes a tag that points at the digest: retired, or gone with its manifest or its repository. */
  ghost predicate DeletesTag(s: State, step: Step, t: TagKey, digest: Digest) {
    || step == RetireTag(t)
    || (step == DeleteManifest(VersionKey(t.pkg, digest)) && VersionKey(t.pkg, digest) in s.db.versions)
    || (step.DeleteRepo? && step.repo == t.pkg && Refusal(s.db, step.repo, step.owner, s.clock).None?)
  }

  ghost predicate IsTagged(s: State, t: TagKey, g: Tag) {
    t in s.db.tags && s.db.tags[t] == g
  }

  ghost predicate Retags(s: State, step: Step, t: TagKey, g: Tag) {
    exists h :: h != g && WritesTag(s, step, t, h)
  }

  lemma StepOnTag(s: State, step: Step, s': State, t: TagKey)
    requires Next(s, step, s')
    ensures t in s'.db.tags && (t !in s.db.tags || s'.db.tags[t] != s.db.tags[t]) ==> WritesTag(s, step, t, s'.db.tags[t])
    ensures t in s.db.tags && t !in s'.db.tags ==> DeletesTag(s, step, t, s.db.tags[t].version)
    ensures forall g :: WritesTag(s, step, t, g) ==> IsTagged(s', t, g)
    ensures t in s.db.tags && DeletesTag(s, step, t, s.db.tags[t].version) ==> t !in s'.db.tags
  {
  }

  lemma StepIsTagged(s: State, step: Step, s': State, t: TagKey, g: Tag)
    requires Next(s, step, s')
    ensures IsTagged(s', t, g) <==>
              || (IsTagged(s, t, g) && !DeletesTag(s, step, t, g.version) && !Retags(s, step, t, g))
              || WritesTag(s, step, t, g)
  {
    StepOnTag(s, step, s', t);
  }

  /** Step k wrote this tag, and up to n it was neither deleted nor written differently. */
  ghost predicate TaggedAt(ss: seq<State>, steps: seq<Step>, k: nat, n: nat, t: TagKey, g: Tag)
    requires |ss| == |steps| + 1 && n <= |steps|
  {
    && k < n && WritesTag(ss[k], steps[k], t, g)
    && forall j :: k < j < n ==> !DeletesTag(ss[j], steps[j], t, g.version) && !Retags(ss[j], steps[j], t, g)
  }

  /**
   In every run a tag has a value if and only if some write gave it that value and it has since been
   neither written again nor retired nor lost with its manifest or its repository. A push moves no
   other tag.
   */
  lemma TaggedIff(ss: seq<State>, steps: seq<Step>, n: nat, t: TagKey, g: Tag)
    requires Run(ss, steps) && n <= |steps| && !IsTagged(ss[0], t, g)
    ensures IsTagged(ss[n], t, g) <==> exists k :: TaggedAt(ss, steps, k, n, t, g)
  {
    var on := seq(|ss|, i requires 0 <= i < |ss| => IsTagged(ss[i], t, g));
    var did := seq(|steps|, i requires 0 <= i < |steps| => WritesTag(ss[i], steps[i], t, g));
    var undid := seq(|steps|, i requires 0 <= i < |steps| => DeletesTag(ss[i], steps[i], t, g.version) || Retags(ss[i], steps[i], t, g));
    forall i | 0 <= i < |steps| ensures on[i + 1] <==> (on[i] && !undid[i]) || did[i] {
      StepIsTagged(ss[i], steps[i], ss[i + 1], t, g);
    }
    GoesBack(on, did, undid, n);
    if on[n] {
      var k: nat :| Since(did, undid, k, n);
      forall j | k < j < n ensures !DeletesTag(ss[j], steps[j], t, g.version) && !Retags(ss[j], steps[j], t, g) {
        assert !undid[j];
      }
      assert TaggedAt(ss, steps, k, n, t, g);
    }
    if k: nat :| TaggedAt(ss, steps, k, n, t, g) {
      assert Since(did, undid, k, n);
    }
  }

  // ---- a push that is lost -------------------------------------------------

  lemma RunJoin(ss: seq<State>, steps: seq<Step>, step: Step, s: State)
    requires Run(ss, steps) && Next(ss[|steps|], step, s)
    ensures Run(ss + [s], steps + [step])
  {
    forall i | 0 <= i < |steps| + 1 ensures Next((ss + [s])[i], (steps + [step])[i], (ss + [s])[i + 1]) {
      assert i < |steps| ==> Next(ss[i], steps[i], ss[i + 1]);
    }
  }

  function Blank(): State {
    State(Db(map[], 0, map[], 0, {}, map[], map[], map[], map[], map[]), 0, 4, map[])
  }

  const AGAIN: Request := Request(3, 7, None, {}, 9)

  /** The node some time after a push of the manifest failed before its tag. */
  function Stale(): State {
    var db := Blank().db.(packages := map[0 := Package(Oci, 3, 4)], nextPackage := 1,
                          versions := map[VersionKey(0, 7) := Version(0, None, None, 0)], nextVersion := 1);
    State(db, 100, 4, map[0 := Failed])
  }

  lemma StaleRun() returns (ss: seq<State>, steps: seq<Step>)
    ensures Run(ss, steps) && ss[0] == Blank() && ss[|steps|] == Stale()
  {
    var s0 := Blank();
    assert !exists i :: Named(s0.db, i, Oci, 3);
    var db1 := s0.db.(packages := map[0 := Package(Oci, 3, 4)], nextPackage := 1);
    var s1 := s0.(db := db1, pushes := map[0 := Resolved(0, AGAIN)]);
    assert GetOrCreatePackage(s0.db, Oci, 3, 4) == (db1, Ok(0));
    assert Next(s0, Resolve(0, AGAIN), s1);
    var s2 := s1.(db := Stale().db, pushes := map[0 := Stored(0, AGAIN)]);
    assert PutFiles(Stale().db, VersionKey(0, 7), {}) == Stale().db;
    assert Next(s1, Store(0), s2);
    var s3 := s2.(pushes := map[0 := Failed]);
    assert Next(s2, Refuse(0), s3);
    assert Next(s3, Tick(100), Stale());
    ss, steps := [s0, s1, s2, s3, Stale()], [Resolve(0, AGAIN), Store(0), Refuse(0), Tick(100)];
  }

  lemma StoreAgain(db: Db, v: VersionKey)
    requires v in db.versions && db.versions[v] == Version(0, None, None, 0) && v.pkg in db.packages
    ensures PutManifestWithLayers(db, v, None, None, {}, 100) == (db, Ok(()))
  {
    assert db.versions[v := db.versions[v]] == db.versions;
    assert PutVersion(db, v, None, None, 100) == db;
    assert PutFiles(db, v, {}).files == db.files;
  }

  /**
   Storing a manifest that is already there keeps its old creation time: a push repeated after a
   failed one has its manifest pruned before the tag is written, and still reports success.
   */
  lemma PushCanBeLost() returns (ss: seq<State>, steps: seq<Step>, p: nat)
    ensures Run(ss, steps) && ss[0] == Blank() && steps != [] && steps[|steps| - 1] == PutTheTag(p)
    ensures p in ss[|steps|].pushes && ss[|steps|].pushes[p] == Succeeded(0, AGAIN) && !Landed(ss[|steps|].db, 0, AGAIN)
  {
    p := 1;
    var v := VersionKey(0, 7);
    ss, steps := StaleRun();
    var s4 := Stale();
    var s5 := s4.(pushes := s4.pushes[1 := Resolved(0, AGAIN)]);
    assert Named(s4.db, 0, Oci, 3);
    assert GetOrCreatePackage(s4.db, Oci, 3, 4) == (s4.db, Ok(0));
    RunJoin(ss, steps, Resolve(1, AGAIN), s5);
    ss, steps := ss + [s5], steps + [Resolve(1, AGAIN)];
    var s6 := s5.(pushes := s5.pushes[1 := Stored(0, AGAIN)]);
    StoreAgain(s5.db, v);
    RunJoin(ss, steps, Store(1), s6);
    ss, steps := ss + [s6], steps + [Store(1)];
    var s7 := s6.(db := DropVersions(s6.db, {v}));
    assert Prunable(s6.db, 50, v);
    RunJoin(ss, steps, PruneBatch(50, {v}), s7);
    ss, steps := ss + [s7], steps + [PruneBatch(50, {v})];
    var r := PutTag(s7.db, TagKey(0, 9), 7, 100);
    var s8 := Settle(s7, 1, r.0, r.1, Succeeded(0, AGAIN));
    RunJoin(ss, steps, PutTheTag(1), s8);
    ss, steps := ss + [s8], steps + [PutTheTag(1)];
  }

  /** A manifest stored for the first time is out of the collector's reach until it has aged. */
  lemma FreshPushIsNotPrunable(s: State, p: nat, s': State, age: Time, later: Time)
    requires p in s.pushes && s.pushes[p].Resolved? && Next(s, Store(p), s') && s'.pushes[p].Stored?
    requires VersionKey(s.pushes[p].id, s.pushes[p].req.digest) !in s.db.versions
    requires later <= s.clock + age
    ensures !Prunable(s'.db, later - age, VersionKey(s.pushes[p].id, s.pushes[p].req.digest))
  {
  }
}

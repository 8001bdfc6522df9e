/**
 Federated content: what an activity from another actor may change. Every database call of
 the inbox handlers is a step of its own, so that other activities, local pushes,
 pull-through caching and deletions can come between a check and the write it guards.
 */
module Ownership {
  import opened Base
  import opened Tables
  import opened Statements

  datatype Body =
    | CreateManifest(repo: Name, digest: Digest, subject: Option<Digest>, content: Option<set<Digest>>, tag: Option<Name>)
    | UpdateTag(repo: Name, digest: Digest, tag: Option<Name>)
    | DeleteManifest(repo: Name, digest: Digest)
    | RemoveTag(repo: Name, tag: Option<Name>)

  /** Who writes: a signed activity, this node (a push, or an upstream cache), or a pull-through read. */
  datatype Origin = Remote(actor: Actor) | Node(owner: Actor) | PullThrough

  datatype Phase =
    | Begun
    | Found(id: Id, owner: Actor) // GetRepository returned a row
    | Missing                     // it returned none
    | Loaded(id: Id, source: Option<Actor>, subject: Option<Digest>) // a manifest row read to be cached again
    | Allowed(id: Id)             // IsRepositoryOwner said yes, or GetOrCreateRepository returned
    | Stored(id: Id)              // the manifest row is written
    | Layering(id: Id)            // GetManifestByDigest found it, its layer rows are next
    | Ready(id: Id)               // the tag may be written
    | Entombing
    | Done

  datatype Task = Task(origin: Origin, body: Body, phase: Phase)

  /** `owners` remembers the owner each package id was created with, also after the package is gone. */
  datatype State = State(db: Db, clock: Time, owners: map<Id, Actor>, tasks: map<nat, Task>)

  datatype Call = GetRepository | CheckOwner | GetOrCreate | PutManifest | GetManifest | RecordLayers | SkipLayers | PutTheTag | Delete | Bury | Fail

  datatype Step =
    | Start(k: nat, origin: Origin, body: Body)
    | Do(k: nat, call: Call)
    | Remove(db: Db)   // garbage collection, retention, repository and manifest deletes of this node
    | Tick(now: Time)

  ghost function Set(s: State, k: nat, phase: Phase): State
    requires k in s.tasks
  {
    s.(tasks := s.tasks[k := s.tasks[k].(phase := phase)])
  }

  ghost predicate Exists(db: Db, name: Name) {
    exists i :: Named(db, i, Oci, name)
  }

  /** GetOrCreateRepository on behalf of an owner, with the history kept. */
  ghost function Created(s: State, k: nat, owner: Actor): State
    requires k in s.tasks
  {
    var r := GetOrCreatePackage(s.db, Oci, s.tasks[k].body.repo, owner);
    if r.1.Err? then Set(s, k, Done)
    else Set(s.(db := r.0, owners := if r.1.value in s.owners then s.owners else s.owners[r.1.value := owner]), k, Allowed(r.1.value))
  }

  /** No content, no file rows. */
  function Refs(b: Body): set<Digest> {
    if b.CreateManifest? && b.content.Some? then b.content.value else {}
  }

  ghost predicate CallNext(s: State, k: nat, call: Call, s': State)
    requires k in s.tasks
  {
    var t := s.tasks[k];
    var body := t.body;
    match call
    case GetRepository =>
      && t.phase.Begun? && !t.origin.Node?
      && if Exists(s.db, body.repo)
         then exists i :: Named(s.db, i, Oci, body.repo) && s' == Set(s, k, Found(i, s.db.packages[i].owner))
         else s' == Set(s, k, Missing)
    case CheckOwner =>
      && t.phase.Found? && t.origin.Remote?
      && s' == Set(s, k, if t.phase.id in s.db.packages && s.db.packages[t.phase.id].owner == t.origin.actor
                         then Allowed(t.phase.id) else Done)
    case GetOrCreate =>
      && body.CreateManifest?
      && if t.origin.Remote? then t.phase.Missing? && s' == Created(s, k, t.origin.actor)
         else t.origin.Node? && t.phase.Begun? && s' == Created(s, k, t.origin.owner)
    case PutManifest =>
      && body.CreateManifest?
      && (match t.origin
          case Remote(a) => // PutManifest: the repository is not looked up again
            && t.phase.Allowed?
            && s' == Set(s.(db := PutVersion(s.db, VersionKey(t.phase.id, body.digest), body.subject, Some(a), s.clock)),
                         k, Stored(t.phase.id))
          case Node(_) =>
            && t.phase.Allowed?
            && var r := PutManifestWithLayers(s.db, VersionKey(t.phase.id, body.digest), body.subject, None, Refs(body), s.clock);
               s' == Set(s.(db := r.0), k, if r.1.Ok? then Ready(t.phase.id) else Done)
          case PullThrough =>
            if t.phase.Loaded? then // PutManifest again, now with the fetched content
              s' == Set(s.(db := PutVersion(s.db, VersionKey(t.phase.id, body.digest), t.phase.subject, t.phase.source, s.clock)), k, Done)
            else
              && t.phase.Found?
              && var r := PutManifestWithLayers(s.db, VersionKey(t.phase.id, body.digest), None, Some(t.phase.owner), Refs(body), s.clock);
                 s' == Set(s.(db := r.0), k, Done))
    case GetManifest =>
      && (t.phase.Allowed? || t.phase.Stored? || t.phase.Found?) && (body.CreateManifest? || body.UpdateTag?)
      && var v := VersionKey(t.phase.id, body.digest);
         var found := v in s.db.versions;
         if body.UpdateTag? && t.phase.Allowed? then s' == Set(s, k, if found then Ready(t.phase.id) else Done)
         else if t.phase.Stored? then s' == Set(s, k, if found then Layering(t.phase.id) else Ready(t.phase.id))
         else
           && t.origin.PullThrough? && t.phase.Found?
           && s' == Set(s, k, if found then Loaded(t.phase.id, s.db.versions[v].source, s.db.versions[v].subject) else Done)
    case RecordLayers => // the rows name the version found before, whether or not it is still there
      && t.phase.Layering? && body.CreateManifest?
      && s' == Set(s.(db := PutFiles(s.db, VersionKey(t.phase.id, body.digest), Refs(body))), k, Ready(t.phase.id))
    case SkipLayers => // no content, no references, or a failed call
      && (t.phase.Stored? || t.phase.Layering?)
      && s' == Set(s, k, Ready(t.phase.id))
    case PutTheTag =>
      && t.phase.Ready? && (body.CreateManifest? || body.UpdateTag?)
      && s' == Set(if body.tag.Some? then s.(db := PutTag(s.db, TagKey(t.phase.id, body.tag.value), body.digest, s.clock).0) else s, k, Done)
    case Delete =>
      && t.phase.Allowed?
      && (match body
          case DeleteManifest(_, d) => s' == Set(s.(db := DeleteVersion(s.db, VersionKey(t.phase.id, d))), k, Entombing)
          case RemoveTag(_, tag) =>
            s' == Set(if tag.Some? then s.(db := DeleteTag(s.db, TagKey(t.phase.id, tag.value))) else s, k, Done)
          case _ => false)
    case Bury =>
      && t.phase.Entombing? && body.DeleteManifest? && t.origin.Remote?
      && s' == Set(s.(db := Entomb(s.db, TombKey(body.repo, body.digest), t.origin.actor, s.clock)), k, Done)
    case Fail => s' == Set(s, k, Done)
  }

  /** A deletion drops rows and changes none of those it keeps. */
  ghost predicate Removes(db: Db, db': Db) {
    && db'.nextPackage == db.nextPackage
    && (forall i :: i in db'.packages ==> i in db.packages && db'.packages[i] == db.packages[i])
    && (forall v :: v in db'.versions ==> v in db.versions && db'.versions[v] == db.versions[v])
    && (forall t :: t in db'.tags ==> t in db.tags && db'.tags[t] == db.tags[t])
    && db'.files <= db.files
  }

  ghost predicate Next(s: State, step: Step, s': State) {
    match step
    case Start(k, origin, body) => k !in s.tasks && s' == s.(tasks := s.tasks[k := Task(origin, body, Begun)])
    case Do(k, call) => k in s.tasks && CallNext(s, k, call, s')
    case Remove(db) => Removes(s.db, db) && s' == s.(db := db)
    case Tick(now) => s.clock <= now && s' == s.(clock := now)
  }

  // ---- invariant -----------------------------------------------------------

  ghost predicate PackagesOk(s: State) {
    && (forall i :: i in s.owners ==> i < s.db.nextPackage)
    && (forall i :: i in s.db.packages ==> i in s.owners && s.owners[i] == s.db.packages[i].owner)
  }

  ghost predicate TaskOk(s: State, t: Task) {
    && (t.phase.Found? ==> t.phase.id in s.owners && s.owners[t.phase.id] == t.phase.owner)
    && (t.phase.Loaded? ==> t.phase.id in s.owners && (t.phase.source.Some? ==> t.phase.source.value == s.owners[t.phase.id]))
    && (t.phase.Allowed? || t.phase.Stored? || t.phase.Layering? || t.phase.Ready? ==>
        t.phase.id in s.owners && (t.origin.Remote? ==> s.owners[t.phase.id] == t.origin.actor))
  }

  ghost predicate VersionOk(s: State, v: VersionKey)
    requires v in s.db.versions
  {
    v.pkg in s.owners && (s.db.versions[v].source.Some? ==> s.db.versions[v].source.value == s.owners[v.pkg])
  }

  ghost predicate Inv(s: State) {
    && PackagesOk(s)
    && (forall k :: k in s.tasks ==> TaskOk(s, s.tasks[k]))
    && (forall v :: v in s.db.versions ==> VersionOk(s, v))
  }

  /** Owners are only ever added, for ids that were not in use. */
  ghost predicate Extends(s: State, s': State) {
    forall i :: i in s.owners ==> i in s'.owners && s'.owners[i] == s.owners[i]
  }

  lemma CreatedIsSound(s: State, k: nat, owner: Actor)
    requires PackagesOk(s) && k in s.tasks
    ensures var s' := Created(s, k, owner);
            && PackagesOk(s') && Extends(s, s') && s'.db.versions == s.db.versions
            && s'.db.tags == s.db.tags && s'.db.files == s.db.files && s'.tasks.Keys == s.tasks.Keys
            && (forall j :: j in s.tasks && j != k ==> s'.tasks[j] == s.tasks[j])
            && (forall i :: i in s'.db.packages && i !in s.db.packages ==> s.db.nextPackage <= i)
            && s'.tasks[k] == s.tasks[k].(phase := s'.tasks[k].phase)
            && (s'.tasks[k].phase.Done?
                || (s'.tasks[k].phase.Allowed? && s'.tasks[k].phase.id in s'.owners && s'.owners[s'.tasks[k].phase.id] == owner))
  {
  }

  lemma CallKeepsOthers(s: State, k: nat, call: Call, s': State)
    requires k in s.tasks && CallNext(s, k, call, s')
    ensures s'.tasks.Keys == s.tasks.Keys && forall j :: j in s.tasks && j != k ==> s'.tasks[j] == s.tasks[j]
  {
  }

  lemma CallKeepsPackages(s: State, k: nat, call: Call, s': State)
    requires PackagesOk(s) && k in s.tasks && CallNext(s, k, call, s')
    ensures PackagesOk(s') && Extends(s, s')
    ensures forall i :: i in s.db.packages ==> i in s'.db.packages && s'.db.packages[i] == s.db.packages[i]
    ensures forall i :: i in s'.db.packages && i !in s.db.packages ==> s.db.nextPackage <= i
  {
    if call.GetOrCreate? {
      var o := s.tasks[k].origin;
      CreatedIsSound(s, k, if o.Remote? then o.actor else if o.Node? then o.owner else 0);
    } else {
      assert s'.db.packages == s.db.packages && s'.db.nextPackage == s.db.nextPackage && s'.owners == s.owners;
    }
  }

  lemma CallKeepsTask(s: State, k: nat, call: Call, s': State)
    requires PackagesOk(s) && k in s.tasks && CallNext(s, k, call, s') && TaskOk(s, s.tasks[k])
    requires forall v :: v in s.db.versions ==> VersionOk(s, v)
    ensures TaskOk(s', s'.tasks[k])
  {
    if call.GetOrCreate? {
      var o := s.tasks[k].origin;
      CreatedIsSound(s, k, if o.Remote? then o.actor else if o.Node? then o.owner else 0);
    }
  }

  /** Only PutManifest writes a version row; the other calls at most remove one. */
  lemma OthersWriteNoVersion(s: State, k: nat, call: Call, s': State, v: VersionKey)
    requires PackagesOk(s) && k in s.tasks && CallNext(s, k, call, s') && !call.PutManifest?
    ensures v in s'.db.versions ==> v in s.db.versions && s'.db.versions[v] == s.db.versions[v]
  {
    if call.GetOrCreate? {
      var o := s.tasks[k].origin;
      CreatedIsSound(s, k, if o.Remote? then o.actor else if o.Node? then o.owner else 0);
    }
  }

  ghost predicate MayWrite(s: State, id: Id, source: Option<Actor>) {
    id in s.owners && (source.Some? ==> source.value == s.owners[id])
  }

  /** What PutManifest may have done to the version rows, whoever called it. */
  lemma PutManifestWritesOne(s: State, k: nat, s': State) returns (w: VersionKey, source: Option<Actor>)
    requires k in s.tasks && CallNext(s, k, PutManifest, s') && TaskOk(s, s.tasks[k])
    ensures s'.owners == s.owners && MayWrite(s, w.pkg, source)
    ensures forall v :: v in s'.db.versions ==>
              if v == w then s'.db.versions[v].source == source || (v in s.db.versions && s'.db.versions[v] == s.db.versions[v])
              else v in s.db.versions && s'.db.versions[v] == s.db.versions[v]
  {
    var t := s.tasks[k];
    w := VersionKey(t.phase.id, t.body.digest);
    source := match t.origin
      case Remote(a) => Some(a)
      case Node(_) => None
      case PullThrough => if t.phase.Loaded? then t.phase.source else Some(t.phase.owner);
  }

  lemma PutManifestKeepsVersions(s: State, k: nat, s': State, v: VersionKey)
    requires k in s.tasks && CallNext(s, k, PutManifest, s') && TaskOk(s, s.tasks[k]) && v in s'.db.versions
    requires v in s.db.versions ==> VersionOk(s, v)
    ensures VersionOk(s', v)
  {
    var w, source := PutManifestWritesOne(s, k, s');
  }

  lemma StepKeepsInv(s: State, step: Step, s': State)
    requires Inv(s) && Next(s, step, s')
    ensures Inv(s') && Extends(s, s')
  {
    if step.Do? {
      CallKeepsPackages(s, step.k, step.call, s');
      CallKeepsOthers(s, step.k, step.call, s');
      forall j | j in s'.tasks ensures TaskOk(s', s'.tasks[j]) {
        assert TaskOk(s, s.tasks[j]);
        if j == step.k {
          CallKeepsTask(s, step.k, step.call, s');
        }
      }
      forall v | v in s'.db.versions ensures VersionOk(s', v) {
        assert v in s.db.versions ==> VersionOk(s, v);
        if step.call.PutManifest? {
          PutManifestKeepsVersions(s, step.k, s', v);
        } else {
          OthersWriteNoVersion(s, step.k, step.call, s', v);
        }
      }
    } else {
      forall j | j in s'.tasks ensures TaskOk(s', s'.tasks[j]) {
        assert j in s.tasks ==> TaskOk(s, s.tasks[j]);
      }
      forall v | v in s'.db.versions ensures VersionOk(s', v) {
        assert VersionOk(s, v);
      }
    }
  }

  // ---- what an activity may touch ------------------------------------------

  /** The rows of package i are the same in both snapshots. */
  ghost predicate SameContent(db: Db, db': Db, i: Id) {
    && (forall v: VersionKey :: v.pkg == i ==>
          (v in db.versions <==> v in db'.versions) && (v in db.versions ==> db.versions[v] == db'.versions[v]))
    && (forall t: TagKey :: t.pkg == i ==> (t in db.tags <==> t in db'.tags) && (t in db.tags ==> db.tags[t] == db'.tags[t]))
    && (forall f: FileRow :: f.owner.pkg == i ==> (f in db.files <==> f in db'.files))
    && (i in db.packages ==> i in db'.packages && db'.packages[i] == db.packages[i])
  }

  lemma OnlyOwnPackage(s: State, k: nat, call: Call, s': State, i: Id)
    requires PackagesOk(s) && k in s.tasks && CallNext(s, k, call, s') && TaskOk(s, s.tasks[k])
    requires s.tasks[k].origin.Remote? && i in s.owners && s.owners[i] != s.tasks[k].origin.actor
    ensures SameContent(s.db, s'.db, i)
  {
    if call.GetOrCreate? {
      CreatedIsSound(s, k, s.tasks[k].origin.actor);
      CallKeepsPackages(s, k, call, s');
    }
  }

  // ---- what an activity achieves -------------------------------------------

  /** The lookup finds the repository with its owner if there is one, and the check lets exactly the owner through. */
  lemma ChecksAreExact(s: State, k: nat, call: Call, s': State)
    requires k in s.tasks && CallNext(s, k, call, s') && s.tasks[k].origin.Remote?
    ensures call.GetRepository? || call.CheckOwner? || call.GetManifest? ==> s'.db == s.db && s'.owners == s.owners
    ensures call.GetRepository? ==>
              match s'.tasks[k].phase
              case Found(i, owner) =>
                i in s.db.packages && s.db.packages[i] == Package(Oci, s.tasks[k].body.repo, owner)
              case Missing => forall i :: i in s.db.packages ==> s.db.packages[i].kind != Oci || s.db.packages[i].name != s.tasks[k].body.repo
              case _ => false
    ensures call.CheckOwner? ==>
              var i := s.tasks[k].phase.id;
              if i in s.db.packages && s.db.packages[i].owner == s.tasks[k].origin.actor
              then s'.tasks[k].phase == Allowed(i) else s'.tasks[k].phase == Done
  {
    if call.GetRepository? && !Exists(s.db, s.tasks[k].body.repo) {
      forall i | i in s.db.packages ensures s.db.packages[i].kind != Oci || s.db.packages[i].name != s.tasks[k].body.repo {
        assert !Named(s.db, i, Oci, s.tasks[k].body.repo);
      }
    }
  }

  /** An allowed Create stores its manifest with the sender as source, and then its layers and its tag. */
  lemma CreateTakesEffect(s: State, k: nat, call: Call, s': State)
    requires k in s.tasks && CallNext(s, k, call, s') && s.tasks[k].origin.Remote? && s.tasks[k].body.CreateManifest?
    ensures call.PutManifest? ==>
              var v, body := VersionKey(s.tasks[k].phase.id, s.tasks[k].body.digest), s.tasks[k].body;
              && v in s'.db.versions && s'.db.versions[v].source == Some(s.tasks[k].origin.actor)
              && s'.db.versions[v].subject == body.subject && SameBut(s.db.versions, s'.db.versions, v)
              && s'.db == s.db.(versions := s'.db.versions, nextVersion := s'.db.nextVersion)
    ensures call.RecordLayers? ==>
              var v, body := VersionKey(s.tasks[k].phase.id, s.tasks[k].body.digest), s.tasks[k].body;
              && s'.db == s.db.(files := s'.db.files)
              && forall f :: f in s'.db.files <==> f in s.db.files || (f.owner == v && body.content.Some? && f.blob in body.content.value)
  {
  }

  /** An allowed tag is written under the package, if that still exists, and no other tag moves. */
  lemma TagTakesEffect(s: State, k: nat, s': State)
    requires k in s.tasks && CallNext(s, k, PutTheTag, s')
    ensures var id, body := s.tasks[k].phase.id, s.tasks[k].body;
            if body.tag.Some? && id in s.db.packages
            then var t := TagKey(id, body.tag.value);
                 && t in s'.db.tags && s'.db.tags[t].version == body.digest && s'.db.tags[t].updated == s.clock
                 && SameBut(s.db.tags, s'.db.tags, t) && s'.db == s.db.(tags := s'.db.tags)
            else s'.db == s.db
  {
  }

  /** An allowed Delete takes the manifest with its tags and file rows, or the tag, and a deleted manifest is entombed. */
  lemma DeleteTakesEffect(s: State, k: nat, call: Call, s': State)
    requires k in s.tasks && CallNext(s, k, call, s')
    ensures call.Delete? && s.tasks[k].body.DeleteManifest? ==>
              var v := VersionKey(s.tasks[k].phase.id, s.tasks[k].body.digest);
              && v !in s'.db.versions && SameBut(s.db.versions, s'.db.versions, v)
              && (v in s.db.versions ==> forall t :: t in s'.db.tags <==> t in s.db.tags && !(t.pkg == v.pkg && s.db.tags[t].version == v.digest))
              && (v in s.db.versions ==> forall f :: f in s'.db.files <==> f in s.db.files && f.owner != v)
    ensures call.Delete? && s.tasks[k].body.RemoveTag? && s.tasks[k].body.tag.Some? ==>
              var t := TagKey(s.tasks[k].phase.id, s.tasks[k].body.tag.value);
              t !in s'.db.tags && SameBut(s.db.tags, s'.db.tags, t) && s'.db == s.db.(tags := s'.db.tags)
    ensures call.Bury? ==>
              var t := TombKey(s.tasks[k].body.repo, s.tasks[k].body.digest);
              && t in s'.db.tombs && SameBut(s.db.tombs, s'.db.tombs, t) && s'.db == s.db.(tombs := s'.db.tombs)
              && (t !in s.db.tombs ==> s'.db.tombs[t] == Tomb(s.tasks[k].origin.actor, s.clock))
  {
  }

  // ---- whole runs ----------------------------------------------------------

  ghost predicate Chain(ss: seq<State>, steps: seq<Step>) {
    |ss| == |steps| + 1 && forall i :: 0 <= i < |steps| ==> Next(ss[i], steps[i], ss[i + 1])
  }

  /** A run starts from any snapshot in which nothing is under way and no version names a foreign source. */
  ghost predicate Run(ss: seq<State>, steps: seq<Step>) {
    Chain(ss, steps) && ss[0].tasks == map[] && Inv(ss[0])
  }

  lemma {:induction false} AlwaysInv(ss: seq<State>, steps: seq<Step>, n: nat)
    requires Run(ss, steps) && n < |ss|
    ensures Inv(ss[n])
  {
    if n == 0 {
    } else {
      AlwaysInv(ss, steps, n - 1);
      StepKeepsInv(ss[n - 1], steps[n - 1], ss[n]);
    }
  }

  /**
   In every run, a call made for an activity of actor X leaves every row of every package
   that belongs to another actor as it was.
   */
  lemma ActivityTouchesOwnOnly(ss: seq<State>, steps: seq<Step>, n: nat, i: Id)
    requires Run(ss, steps) && n < |steps| && steps[n].Do? && steps[n].k in ss[n].tasks
    requires ss[n].tasks[steps[n].k].origin.Remote?
    requires i in ss[n].db.packages && ss[n].db.packages[i].owner != ss[n].tasks[steps[n].k].origin.actor
    ensures SameContent(ss[n].db, ss[n + 1].db, i)
  {
    AlwaysInv(ss, steps, n);
    assert TaskOk(ss[n], ss[n].tasks[steps[n].k]);
    assert Next(ss[n], steps[n], ss[n + 1]);
    OnlyOwnPackage(ss[n], steps[n].k, steps[n].call, ss[n + 1], i);
  }

  ghost predicate Owned(s: State, i: Id, a: Actor) {
    i in s.owners && s.owners[i] == a
  }

  lemma StepKeepsOwned(s: State, step: Step, s': State, i: Id, a: Actor)
    requires Inv(s) && Next(s, step, s') && Owned(s, i, a)
    ensures Owned(s', i, a)
  {
    StepKeepsInv(s, step, s');
  }

  lemma OwnerIsKept(ss: seq<State>, steps: seq<Step>, m: nat, n: nat, i: Id, a: Actor)
    requires Run(ss, steps) && m <= n < |ss| && Owned(ss[m], i, a)
    ensures Owned(ss[n], i, a)
  {
    var p := seq(|ss|, j requires 0 <= j < |ss| => Owned(ss[j], i, a));
    forall j | 0 <= j < |p| - 1 && p[j] ensures p[j + 1] {
      AlwaysInv(ss, steps, j);
      StepKeepsOwned(ss[j], steps[j], ss[j + 1], i, a);
    }
    StaysTrue(p, m, n);
  }

  /** A package id has one owner, ever: also when the package is deleted and its name taken again. */
  lemma OwnersNeverChange(ss: seq<State>, steps: seq<Step>, m: nat, n: nat, i: Id)
    requires Run(ss, steps) && m <= n < |ss| && i in ss[m].db.packages && i in ss[n].db.packages
    ensures ss[n].db.packages[i].owner == ss[m].db.packages[i].owner
  {
    AlwaysInv(ss, steps, m);
    OwnerIsKept(ss, steps, m, n, i, ss[m].owners[i]);
    AlwaysInv(ss, steps, n);
  }

  /** Every stored version came from this node or from the owner of its package. */
  lemma SourceIsOwner(ss: seq<State>, steps: seq<Step>, n: nat, v: VersionKey)
    requires Run(ss, steps) && n < |ss| && v in ss[n].db.versions && v.pkg in ss[n].db.packages
    ensures var row := ss[n].db.versions[v];
            row.source == None || row.source == Some(ss[n].db.packages[v.pkg].owner)
  {
    AlwaysInv(ss, steps, n);
    assert VersionOk(ss[n], v);
  }
}

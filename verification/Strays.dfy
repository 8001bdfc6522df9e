/**
 Rows without their parent. The inbox checks a repository or a manifest in one call and writes
 in another, and there are no foreign keys, so a version can be stored for a package that is gone
 and layer rows for a version that is gone. Here is exactly when, over every run of Ownership, and
 how the inbox comes to store a reference cycle that pruning never frees.
 */
module Strays {
  import opened Base
  import opened Tables
  import Prune
  import opened Ownership

  ghost predicate NoStrays(db: Db) {
    && (forall v :: v in db.versions ==> v.pkg in db.packages)
    && (forall f :: f in db.files ==> f.owner in db.versions)
  }

  /** A deletion takes the versions with their package and the file rows with their version. */
  ghost predicate Thorough(s: State, step: Step) {
    step.Remove? ==>
      && (forall v :: v in step.db.versions && v.pkg in s.db.packages ==> v.pkg in step.db.packages)
      && (forall f :: f in step.db.files && f.owner in s.db.versions ==> f.owner in step.db.versions)
  }

  ghost predicate ThoroughRun(ss: seq<State>, steps: seq<Step>) {
    && Run(ss, steps) && NoStrays(ss[0].db)
    && forall i :: 0 <= i < |steps| ==> Thorough(ss[i], steps[i])
  }

  // ---- versions without a package ------------------------------------------

  /** The call stores the manifest without looking its repository up again. */
  ghost predicate Unchecked(t: Task) {
    t.body.CreateManifest? && ((t.origin.Remote? && t.phase.Allowed?) || (t.origin.PullThrough? && t.phase.Loaded?))
  }

  /** The step is such a call for `v`, made while the package is missing. */
  ghost predicate StoresStray(s: State, step: Step, v: VersionKey) {
    && step.Do? && step.call.PutManifest? && step.k in s.tasks
    && Unchecked(s.tasks[step.k])
    && v == VersionKey(s.tasks[step.k].phase.id, s.tasks[step.k].body.digest)
    && v.pkg !in s.db.packages
  }

  ghost predicate Homeless(s: State, v: VersionKey) {
    v in s.db.versions && v.pkg !in s.db.packages
  }

  /** An id that was handed out and is gone does not come back. */
  lemma GoneStaysGone(s: State, step: Step, s': State, i: Id)
    requires PackagesOk(s) && Next(s, step, s') && i in s.owners && i !in s.db.packages
    ensures i !in s'.db.packages
  {
    if step.Do? {
      CallKeepsPackages(s, step.k, step.call, s');
    }
  }

  lemma CallIntoHomeless(s: State, k: nat, call: Call, s': State, v: VersionKey)
    requires PackagesOk(s) && k in s.tasks && TaskOk(s, s.tasks[k]) && CallNext(s, k, call, s')
    ensures Homeless(s', v) && !Homeless(s, v) ==> StoresStray(s, Do(k, call), v)
  {
    CallKeepsPackages(s, k, call, s');
    if !call.PutManifest? {
      OthersWriteNoVersion(s, k, call, s', v);
    }
  }

  lemma StrayIsHomeless(s: State, k: nat, s': State, v: VersionKey)
    requires k in s.tasks && CallNext(s, k, PutManifest, s') && StoresStray(s, Do(k, PutManifest), v)
    ensures Homeless(s', v)
  {
  }

  lemma StepHomeless(s: State, step: Step, s': State, v: VersionKey)
    requires Inv(s) && Next(s, step, s') && Thorough(s, step)
    ensures Homeless(s', v) <==> (Homeless(s, v) && v in s'.db.versions) || StoresStray(s, step, v)
  {
    if Homeless(s, v) {
      assert VersionOk(s, v);
      GoneStaysGone(s, step, s', v.pkg);
    }
    if step.Do? {
      assert TaskOk(s, s.tasks[step.k]);
      CallIntoHomeless(s, step.k, step.call, s', v);
      if StoresStray(s, step, v) {
        StrayIsHomeless(s, step.k, s', v);
      }
    }
  }

  /** Step k stored `v` while its package was missing, and the row has not been deleted before n. */
  ghost predicate StrayedAt(ss: seq<State>, steps: seq<Step>, k: nat, n: nat, v: VersionKey)
    requires |ss| == |steps| + 1 && n <= |steps|
  {
    k < n && StoresStray(ss[k], steps[k], v) && forall j :: k + 1 < j <= n ==> v in ss[j].db.versions
  }

  /**
   In every run a version row is without a package if and only if it goes back to an unchecked
   PutManifest (of an activity, or of a pull-through read that had loaded the row) that ran while
   the package id was missing.
   */
  lemma HomelessIff(ss: seq<State>, steps: seq<Step>, n: nat, v: VersionKey)
    requires ThoroughRun(ss, steps) && n <= |steps|
    ensures Homeless(ss[n], v) <==> exists k :: StrayedAt(ss, steps, k, n, v)
  {
    var on := seq(|ss|, i requires 0 <= i < |ss| => Homeless(ss[i], v));
    var did := seq(|steps|, i requires 0 <= i < |steps| => StoresStray(ss[i], steps[i], v));
    var undid := seq(|steps|, i requires 0 <= i < |steps| => v !in ss[i + 1].db.versions);
    forall i | 0 <= i < |steps| ensures on[i + 1] <==> (on[i] && !undid[i]) || did[i] {
      AlwaysInv(ss, steps, i);
      StepHomeless(ss[i], steps[i], ss[i + 1], v);
    }
    GoesBack(on, did, undid, n);
    if on[n] {
      var k: nat :| Since(did, undid, k, n);
      forall j | k + 1 < j <= n ensures v in ss[j].db.versions {
        assert !undid[j - 1];
      }
      assert StrayedAt(ss, steps, k, n, v);
    }
    if k: nat :| StrayedAt(ss, steps, k, n, v) {
      assert Since(did, undid, k, n);
    }
  }

  // ---- file rows without a version -----------------------------------------

  /** The step writes layer rows for a version that was there when it was looked up and is missing now. */
  ghost predicate StoresStrayFile(s: State, step: Step, f: FileRow) {
    && step.Do? && step.call.RecordLayers? && step.k in s.tasks
    && var t := s.tasks[step.k];
       && t.phase.Layering? && t.body.CreateManifest?
       && f.owner == VersionKey(t.phase.id, t.body.digest) && f.blob in Refs(t.body)
       && f.owner !in s.db.versions
  }

  ghost predicate Dangling(s: State, f: FileRow) {
    f in s.db.files && f.owner !in s.db.versions
  }

  /** No other call leaves a file row behind or brings one up without its version. */
  lemma CallIntoDangling(s: State, k: nat, call: Call, s': State, f: FileRow)
    requires PackagesOk(s) && k in s.tasks && CallNext(s, k, call, s')
    ensures Dangling(s', f) && !Dangling(s, f) ==> StoresStrayFile(s, Do(k, call), f)
  {
    if call.GetOrCreate? {
      var o := s.tasks[k].origin;
      CreatedIsSound(s, k, if o.Remote? then o.actor else if o.Node? then o.owner else 0);
    }
  }

  lemma StepDangling(s: State, step: Step, s': State, f: FileRow)
    requires Inv(s) && Next(s, step, s') && Thorough(s, step)
    ensures Dangling(s', f) <==>
              (Dangling(s, f) && f in s'.db.files && f.owner !in s'.db.versions) || StoresStrayFile(s, step, f)
  {
    if step.Do? {
      CallIntoDangling(s, step.k, step.call, s', f);
    }
  }

  /** Step k wrote `f` while its version was missing, and since then neither went nor came back before n. */
  ghost predicate FileStrayedAt(ss: seq<State>, steps: seq<Step>, k: nat, n: nat, f: FileRow)
    requires |ss| == |steps| + 1 && n <= |steps|
  {
    k < n && StoresStrayFile(ss[k], steps[k], f) && forall j :: k + 1 < j <= n ==> Dangling(ss[j], f)
  }

  /**
   In every run a file row is without its version if and only if it goes back to an inbox call that
   recorded layers for a version deleted since it was looked up.
   */
  lemma DanglingIff(ss: seq<State>, steps: seq<Step>, n: nat, f: FileRow)
    requires ThoroughRun(ss, steps) && n <= |steps|
    ensures Dangling(ss[n], f) <==> exists k :: FileStrayedAt(ss, steps, k, n, f)
  {
    var on := seq(|ss|, i requires 0 <= i < |ss| => Dangling(ss[i], f));
    var did := seq(|steps|, i requires 0 <= i < |steps| => StoresStrayFile(ss[i], steps[i], f));
    var undid := seq(|steps|, i requires 0 <= i < |steps| => !Dangling(ss[i + 1], f));
    forall i | 0 <= i < |steps| ensures on[i + 1] <==> (on[i] && !undid[i]) || did[i] {
      AlwaysInv(ss, steps, i);
      StepDangling(ss[i], steps[i], ss[i + 1], f);
    }
    GoesBack(on, did, undid, n);
    if on[n] {
      var k: nat :| Since(did, undid, k, n);
      forall j | k + 1 < j <= n ensures Dangling(ss[j], f) {
        assert !undid[j - 1];
      }
      assert FileStrayedAt(ss, steps, k, n, f);
    }
    if k: nat :| FileStrayedAt(ss, steps, k, n, f) {
      assert Since(did, undid, k, n);
    }
  }

  // ---- runs that leave strays ----------------------------------------------

  lemma ChainJoin(ss: seq<State>, steps: seq<Step>, step: Step, s: State)
    requires Chain(ss, steps) && Next(ss[|steps|], step, s)
    ensures Chain(ss + [s], steps + [step])
  {
    forall i | 0 <= i < |steps| + 1 ensures Next((ss + [s])[i], (steps + [step])[i], (ss + [s])[i + 1]) {
      assert i < |steps| ==> Next(ss[i], steps[i], ss[i + 1]);
    }
  }

  /** An empty node. */
  function Blank(): State {
    State(Db(map[], 0, map[], 0, {}, map[], map[], map[], map[], map[]), 0, map[], map[])
  }

  /** A node on which actor 4 has just been given repository 3 for its first manifest. */
  function Granted(body: Body): State {
    State(Blank().db.(packages := map[0 := Package(Oci, 3, 4)], nextPackage := 1), 0, map[0 := 4],
          map[0 := Task(Remote(4), body, Allowed(0))])
  }

  /** A remote Create for a repository that does not exist yet, up to the grant. */
  lemma GrantRun(body: Body) returns (ss: seq<State>, steps: seq<Step>)
    requires body.CreateManifest? && body.repo == 3
    ensures ThoroughRun(ss, steps) && ss[|steps|] == Granted(body)
  {
    var s0 := Blank();
    var s1 := s0.(tasks := map[0 := Task(Remote(4), body, Begun)]);
    var s2 := s0.(tasks := map[0 := Task(Remote(4), body, Missing)]);
    var s3 := Granted(body);
    assert !Exists(s1.db, 3);
    assert Next(s0, Start(0, Remote(4), body), s1);
    assert Next(s1, Do(0, GetRepository), s2);
    assert !exists i :: Named(s2.db, i, Oci, 3);
    assert Created(s2, 0, 4) == s3;
    assert Next(s2, Do(0, GetOrCreate), s3);
    ss, steps := [s0, s1, s2, s3], [Start(0, Remote(4), body), Do(0, GetRepository), Do(0, GetOrCreate)];
  }

  lemma ExtendRun(ss: seq<State>, steps: seq<Step>, step: Step, s: State)
    requires ThoroughRun(ss, steps) && Next(ss[|steps|], step, s) && Thorough(ss[|steps|], step)
    ensures ThoroughRun(ss + [s], steps + [step])
  {
    ChainJoin(ss, steps, step, s);
    var all, done := ss + [s], steps + [step];
    forall i | 0 <= i < |done| ensures Thorough(all[i], done[i]) {
      assert i < |steps| ==> Thorough(ss[i], steps[i]);
    }
  }

  /** The package is deleted between the grant and the write. */
  lemma VersionCanStray() returns (ss: seq<State>, steps: seq<Step>, v: VersionKey)
    ensures ThoroughRun(ss, steps) && Homeless(ss[|steps|], v)
  {
    var body := CreateManifest(3, 7, None, None, None);
    v := VersionKey(0, 7);
    ss, steps := GrantRun(body);
    var s3 := Granted(body);
    var s4 := s3.(db := s3.db.(packages := map[]));
    ExtendRun(ss, steps, Remove(s4.db), s4);
    ss, steps := ss + [s4], steps + [Remove(s4.db)];
    var s5 := Ownership.Set(s4.(db := PutVersion(s4.db, v, None, Some(4), 0)), 0, Stored(0));
    ExtendRun(ss, steps, Do(0, PutManifest), s5);
    ss, steps := ss + [s5], steps + [Do(0, PutManifest)];
  }

  /** The same node after the manifest was stored. */
  function Kept(body: Body): State
    requires body.CreateManifest?
  {
    var s := Granted(body);
    s.(db := PutVersion(s.db, VersionKey(0, body.digest), body.subject, Some(4), 0), tasks := map[0 := Task(Remote(4), body, Stored(0))])
  }

  lemma StoreRun(body: Body) returns (ss: seq<State>, steps: seq<Step>)
    requires body.CreateManifest? && body.repo == 3
    ensures ThoroughRun(ss, steps) && ss[|steps|] == Kept(body)
  {
    ss, steps := GrantRun(body);
    assert Kept(body).tasks == Granted(body).tasks[0 := Task(Remote(4), body, Stored(0))];
    ExtendRun(ss, steps, Do(0, PutManifest), Kept(body));
    ss, steps := ss + [Kept(body)], steps + [Do(0, PutManifest)];
  }

  lemma LookupRun(body: Body) returns (ss: seq<State>, steps: seq<Step>)
    requires body.CreateManifest? && body.repo == 3
    ensures ThoroughRun(ss, steps) && ss[|steps|] == Ownership.Set(Kept(body), 0, Layering(0))
  {
    ss, steps := StoreRun(body);
    var s := Ownership.Set(Kept(body), 0, Layering(0));
    ExtendRun(ss, steps, Do(0, GetManifest), s);
    ss, steps := ss + [s], steps + [Do(0, GetManifest)];
  }

  /** The version is deleted between its lookup and the writing of its layers. */
  lemma FileCanStray() returns (ss: seq<State>, steps: seq<Step>, f: FileRow)
    ensures ThoroughRun(ss, steps) && Dangling(ss[|steps|], f)
  {
    var body := CreateManifest(3, 7, None, Some({9}), None);
    f := FileRow(VersionKey(0, 7), 9);
    ss, steps := LookupRun(body);
    var s5 := ss[|steps|];
    var s6 := s5.(db := DropVersions(s5.db, {f.owner}));
    ExtendRun(ss, steps, Remove(s6.db), s6);
    ss, steps := ss + [s6], steps + [Remove(s6.db)];
    var s7 := Ownership.Set(s6.(db := PutFiles(s6.db, f.owner, {9})), 0, Ready(0));
    ExtendRun(ss, steps, Do(0, RecordLayers), s7);
    ss, steps := ss + [s7], steps + [Do(0, RecordLayers)];
  }

  // ---- a cycle that is received and never pruned ---------------------------

  /** A second Create of the same actor for the same repository, after a first one was stored. */
  lemma SecondRun(first: Body, body: Body) returns (ss: seq<State>, steps: seq<Step>)
    requires first.CreateManifest? && first.repo == 3 && body.CreateManifest? && body.repo == 3
    ensures ThoroughRun(ss, steps)
    ensures ss[|steps|].db == PutVersion(Kept(first).db, VersionKey(0, body.digest), body.subject, Some(4), 0)
  {
    ss, steps := StoreRun(first);
    var s0 := Kept(first);
    var s1 := s0.(tasks := s0.tasks[1 := Task(Remote(4), body, Begun)]);
    ExtendRun(ss, steps, Start(1, Remote(4), body), s1);
    ss, steps := ss + [s1], steps + [Start(1, Remote(4), body)];
    var s2 := Ownership.Set(s1, 1, Found(0, 4));
    assert Named(s1.db, 0, Oci, 3);
    ExtendRun(ss, steps, Do(1, GetRepository), s2);
    ss, steps := ss + [s2], steps + [Do(1, GetRepository)];
    var s3 := Ownership.Set(s2, 1, Allowed(0));
    ExtendRun(ss, steps, Do(1, CheckOwner), s3);
    ss, steps := ss + [s3], steps + [Do(1, CheckOwner)];
    var s4 := Ownership.Set(s3.(db := PutVersion(s3.db, VersionKey(0, body.digest), body.subject, Some(4), 0)), 1, Stored(0));
    ExtendRun(ss, steps, Do(1, PutManifest), s4);
    ss, steps := ss + [s4], steps + [Do(1, PutManifest)];
  }

  lemma MutualIsStranded(db: Db, cutoff: Time, a: VersionKey, b: VersionKey)
    requires db.versions.Keys == {a, b} && a.pkg == b.pkg && db.tags == map[]
    requires db.versions[a].subject == Some(b.digest) && db.versions[b].subject == Some(a.digest)
    requires db.versions[a].created < cutoff && db.versions[b].created < cutoff
    requires a.pkg in db.packages && db.packages[a.pkg].kind == Oci
    ensures Prune.Stranded(db, cutoff, [a, b]) && Prune.Settled(db, cutoff)
  {
    assert Prune.Edge(db, a, b) && Prune.Edge(db, b, a);
    assert forall v :: !Prune.Root(db, cutoff, v);
    assert Prune.Cycle(db, [a, b]);
  }

  /**
   Two activities of one actor whose manifests name each other as subject: the inbox takes the
   subject from the activity, not from the content. The cycle they store is never pruned, at any
   cutoff, although nothing tagged reaches it.
   */
  lemma MutualSubjectsAreNeverPruned(cutoff: Time) returns (ss: seq<State>, steps: seq<Step>, c: seq<VersionKey>)
    requires 0 < cutoff
    ensures ThoroughRun(ss, steps) && ss[|steps|].db.tags == map[]
    ensures Prune.Stranded(ss[|steps|].db, cutoff, c) && Prune.Settled(ss[|steps|].db, cutoff)
  {
    var first, second := CreateManifest(3, 7, Some(8), None, None), CreateManifest(3, 8, Some(7), None, None);
    ss, steps := SecondRun(first, second);
    var db := ss[|steps|].db;
    var a, b := VersionKey(0, 7), VersionKey(0, 8);
    c := [a, b];
    MutualIsStranded(db, cutoff, a, b);
  }
}

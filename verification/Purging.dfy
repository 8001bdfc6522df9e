/**
 The files of purged blobs. Deleting a repository and evicting a mirror remove blob rows in one
 transaction and unlink the files afterwards, one by one and without another look. A push of the
 same digest in between keeps its row and loses its bytes; here is exactly when.
 */
module Purging {
  import opened Base
  import opened Tables
  import opened RepoDelete
  import opened Collector
  import Grace

  type Request = nat

  /** `due` holds, for each delete request past its transaction, the files it has still to unlink. */
  datatype State = State(db: Db, disk: map<Digest, Stored>, clock: Time, due: map<Request, set<Digest>>)

  datatype Step =
    | DeleteRepo(r: Request, repo: Id, owner: Actor, db: Db)
    | Evict(r: Request, purged: set<Digest>, db: Db) // a mirrored repository, or one of its manifests
    | Unlink(r: Request, d: Digest)
    | FailUnlink(r: Request, d: Digest)
    | PutBytes(d: Digest, size: nat)
    | PutRow(d: Digest, size: nat, mediaType: Option<nat>, local: bool)
    | Commit(v: VersionKey, subject: Option<Digest>, source: Option<Actor>, refs: set<Digest>)
    | Elsewhere(db: Db)                              // every other writer of the database
    | Tick(now: Time)

  /** The purged rows are gone, and no file row lists them any more. */
  ghost predicate Purges(db: Db, after: Db, purged: set<Digest>) {
    && after.blobs == db.blobs - purged && after.files <= db.files
    && forall d :: d in purged ==> d in db.blobs && !Referenced(after, d)
  }

  function Done(s: State, r: Request, d: Digest): map<Request, set<Digest>>
    requires r in s.due
  {
    s.due[r := s.due[r] - {d}]
  }

  ghost predicate Next(s: State, step: Step, s': State) {
    match step
    case DeleteRepo(r, repo, owner, db) =>
      && r !in s.due && Refusal(s.db, repo, owner, s.clock).None? && Deleted(s.db, repo, owner, s.clock, db)
      && s' == s.(db := db, due := s.due[r := Purge(s.db, repo)])
    case Evict(r, purged, db) =>
      r !in s.due && Purges(s.db, db, purged) && s' == s.(db := db, due := s.due[r := purged])
    case Unlink(r, d) =>
      r in s.due && d in s.due[r] && s' == s.(disk := s.disk - {d}, due := Done(s, r, d))
    case FailUnlink(r, d) => r in s.due && d in s.due[r] && s' == s.(due := Done(s, r, d))
    case PutBytes(d, size) => s' == s.(disk := s.disk[d := Stored(size, s.clock)])
    case PutRow(d, size, mt, local) => s' == s.(db := PutBlob(s.db, d, size, mt, local, s.clock))
    case Commit(v, subject, source, refs) =>
      s' == s.(db := PutManifestWithLayers(s.db, v, subject, source, refs, s.clock).0)
    case Elsewhere(db) => s' == s.(db := db)
    case Tick(now) => s.clock <= now && s' == s.(clock := now)
  }

  /** The transaction of a repository delete purges in this sense. */
  lemma RepoDeletePurges(db: Db, repo: Id, owner: Actor, now: Time, after: Db)
    requires repo in db.packages && Deleted(db, repo, owner, now, after)
    ensures Purges(db, after, Purge(db, repo))
  {
    assert forall f :: f in after.files <==> f in db.files && f !in RepoFiles(db, repo);
  }

  ghost predicate Run(ss: seq<State>, steps: seq<Step>) {
    |ss| == |steps| + 1 && forall i :: 0 <= i < |steps| ==> Next(ss[i], steps[i], ss[i + 1])
  }

  // ---- due unlinks ---------------------------------------------------------

  ghost predicate IsDue(s: State, r: Request, d: Digest) {
    r in s.due && d in s.due[r]
  }

  /** The transaction of request r purges the row of `d`. */
  ghost predicate PurgesIt(s: State, step: Step, r: Request, d: Digest) {
    || (step.DeleteRepo? && step.r == r && step.repo in s.db.packages && d in Purge(s.db, step.repo))
    || (step.Evict? && step.r == r && d in step.purged)
  }

  ghost predicate Settles(step: Step, r: Request, d: Digest) {
    step == Unlink(r, d) || step == FailUnlink(r, d)
  }

  lemma StepIsDue(s: State, step: Step, s': State, r: Request, d: Digest)
    requires Next(s, step, s')
    ensures IsDue(s', r, d) <==> (IsDue(s, r, d) && !Settles(step, r, d)) || PurgesIt(s, step, r, d)
  {
  }

  /** Step k is the transaction of request r that purged `d`, and its file has not been dealt with before n. */
  ghost predicate PurgedAt(ss: seq<State>, steps: seq<Step>, r: Request, k: nat, n: nat, d: Digest)
    requires |ss| == |steps| + 1 && n <= |steps|
  {
    k < n && PurgesIt(ss[k], steps[k], r, d) && forall j :: k < j < n ==> !Settles(steps[j], r, d)
  }

  lemma DueIff(ss: seq<State>, steps: seq<Step>, r: Request, d: Digest)
    requires Run(ss, steps) && ss[0].due == map[]
    ensures IsDue(ss[|steps|], r, d) <==> exists k :: PurgedAt(ss, steps, r, k, |steps|, d)
  {
    var n := |steps|;
    var on := seq(|ss|, i requires 0 <= i < |ss| => IsDue(ss[i], r, d));
    var did := seq(n, i requires 0 <= i < n => PurgesIt(ss[i], steps[i], r, d));
    var undid := seq(n, i requires 0 <= i < n => Settles(steps[i], r, d));
    forall i | 0 <= i < n ensures on[i + 1] <==> (on[i] && !undid[i]) || did[i] {
      StepIsDue(ss[i], steps[i], ss[i + 1], r, d);
    }
    GoesBack(on, did, undid, n);
    if on[n] {
      var k: nat :| Since(did, undid, k, n);
      forall j | k < j < n ensures !Settles(steps[j], r, d) {
        assert !undid[j];
      }
      assert PurgedAt(ss, steps, r, k, n, d);
    }
    if k: nat :| PurgedAt(ss, steps, r, k, n, d) {
      assert Since(did, undid, k, n);
    }
  }

  // ---- losing the bytes ----------------------------------------------------

  /** The last step unlinks a file whose blob has its row and is listed by a manifest. */
  ghost predicate BytesLost(ss: seq<State>, steps: seq<Step>, d: Digest)
    requires |ss| == |steps| + 1
  {
    && steps != [] && steps[|steps| - 1].Unlink? && steps[|steps| - 1].d == d
    && var s := ss[|steps| - 1]; d in s.disk && d in s.db.blobs && Referenced(s.db, d)
  }

  ghost predicate NoPurge(steps: seq<Step>) {
    forall i :: 0 <= i < |steps| ==> !steps[i].DeleteRepo? && !steps[i].Evict?
  }

  /** Without another delete, the bytes of `d` may still be unlinked under its row and a manifest that lists it. */
  ghost predicate CanLoseBytes(s: State, d: Digest) {
    exists ss, steps :: Run(ss, steps) && ss[0] == s && NoPurge(steps) && BytesLost(ss, steps, d)
  }

  lemma {:induction false} NoPurgeNoEntry(ss: seq<State>, steps: seq<Step>, n: nat, r: Request, d: Digest)
    requires Run(ss, steps) && NoPurge(steps) && n < |ss| && IsDue(ss[n], r, d)
    ensures IsDue(ss[0], r, d)
  {
    if n != 0 {
      StepIsDue(ss[n - 1], steps[n - 1], ss[n], r, d);
      NoPurgeNoEntry(ss, steps, n - 1, r, d);
    }
  }

  lemma RunCons(s: State, step: Step, ss: seq<State>, steps: seq<Step>)
    requires Run(ss, steps) && Next(s, step, ss[0])
    ensures Run([s] + ss, [step] + steps)
  {
    forall i | 0 <= i < |steps| + 1 ensures Next(([s] + ss)[i], ([step] + steps)[i], ([s] + ss)[i + 1]) {
      assert 0 < i ==> Next(ss[i - 1], steps[i - 1], ss[i]);
    }
  }

  lemma LastUnlink(s: State, r: Request, d: Digest) returns (ss: seq<State>, steps: seq<Step>)
    requires IsDue(s, r, d) && d in s.disk && d in s.db.blobs && Referenced(s.db, d)
    ensures Run(ss, steps) && ss[0] == s && NoPurge(steps) && BytesLost(ss, steps, d)
  {
    var s' := s.(disk := s.disk - {d}, due := Done(s, r, d));
    assert Next(s, Unlink(r, d), s');
    ss, steps := [s, s'], [Unlink(r, d)];
  }

  /** A losing run, with one step before it that is not a delete. */
  lemma Earlier(s: State, step: Step, ss: seq<State>, steps: seq<Step>, d: Digest) returns (ts: seq<State>, more: seq<Step>)
    requires Run(ss, steps) && NoPurge(steps) && BytesLost(ss, steps, d)
    requires Next(s, step, ss[0]) && !step.DeleteRepo? && !step.Evict?
    ensures Run(ts, more) && ts[0] == s && NoPurge(more) && BytesLost(ts, more, d)
  {
    RunCons(s, step, ss, steps);
    ts, more := [s] + ss, [step] + steps;
    assert ts[|more| - 1] == ss[|steps| - 1] && more[|more| - 1] == steps[|steps| - 1];
  }

  /** A push, into a new repository if there is none, up to its manifest, and then the unlink that was due. */
  lemma DueCanLose(s: State, r: Request, d: Digest) returns (ss: seq<State>, steps: seq<Step>)
    requires IsDue(s, r, d)
    ensures Run(ss, steps) && ss[0] == s && NoPurge(steps) && BytesLost(ss, steps, d)
  {
    var home, v := Grace.Home(s.db).0, VersionKey(Grace.Home(s.db).1, 1);
    var s1 := s.(db := home);
    var s2 := s1.(disk := s1.disk[d := Stored(0, s1.clock)]);
    var s3 := s2.(db := PutBlob(s2.db, d, 0, None, true, s2.clock));
    var s4 := s3.(db := PutManifestWithLayers(s3.db, v, None, None, {d}, s3.clock).0);
    Grace.CommitReferences(s3.db, v, d, s3.clock);
    ss, steps := LastUnlink(s4, r, d);
    var c1, c2, c3 := PutBytes(d, 0), PutRow(d, 0, None, true), Commit(v, None, None, {d});
    ss, steps := Earlier(s3, c3, ss, steps, d);
    ss, steps := Earlier(s2, c2, ss, steps, d);
    ss, steps := Earlier(s1, c1, ss, steps, d);
    ss, steps := Earlier(s, Elsewhere(home), ss, steps, d);
  }

  /**
   After any run, the bytes of `d` may still be unlinked under its row and a manifest that lists it
   if and only if some delete purged `d` and has not come to its file yet, however often `d` was
   pushed since.
   */
  lemma PurgedBytesCanBeLostIff(ss: seq<State>, steps: seq<Step>, d: Digest)
    requires Run(ss, steps) && ss[0].due == map[]
    ensures CanLoseBytes(ss[|steps|], d) <==> exists r, k :: PurgedAt(ss, steps, r, k, |steps|, d)
  {
    var s := ss[|steps|];
    if CanLoseBytes(s, d) {
      var ts: seq<State>, more: seq<Step> :| Run(ts, more) && ts[0] == s && NoPurge(more) && BytesLost(ts, more, d);
      var r := more[|more| - 1].r;
      assert Next(ts[|more| - 1], more[|more| - 1], ts[|more|]);
      NoPurgeNoEntry(ts, more, |more| - 1, r, d);
      DueIff(ss, steps, r, d);
    }
    if r, k :| PurgedAt(ss, steps, r, k, |steps|, d) {
      DueIff(ss, steps, r, d);
      var ts, more := DueCanLose(s, r, d);
    }
  }

  /** A purge of an owned repository that leaves such an unlink due. */
  lemma PurgeIsReachable() returns (ss: seq<State>, steps: seq<Step>)
    ensures Run(ss, steps) && ss[0].due == map[] && IsDue(ss[|steps|], 0, 7)
  {
    var v, f := VersionKey(0, 8), FileRow(VersionKey(0, 8), 7);
    var db := Db(map[0 := Package(Oci, 3, 4)], 1, map[v := Version(0, None, None, 0)], 1, {f}, map[],
                 map[7 := Blob(0, None, true, 0)], map[], map[], map[]);
    var after := Db(map[], 1, map[], 1, {}, map[], map[], map[], map[TombKey(3, 8) := Tomb(4, 0)], map[]);
    assert RepoVersions(db, 0) == {v} && RepoFiles(db, 0) == {f};
    assert f.blob in Purge(db, 0);
    assert Purge(db, 0) == {7};
    var s0 := State(db, map[], 0, map[]);
    var s1 := State(after, map[], 0, map[0 := {7}]);
    assert Deleted(db, 0, 4, 0, after);
    assert Next(s0, DeleteRepo(0, 0, 4, after), s1);
    ss, steps := [s0, s1], [DeleteRepo(0, 0, 4, after)];
  }
}

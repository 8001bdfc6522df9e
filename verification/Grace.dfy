/**
 The collector against concurrent pushes. Every statement and every file operation is
 one step, so a digest can be pushed, listed, referenced and judged in any order. A blob
 that a manifest lists before its grace period has run out is never collected; a blob
 that was already an old orphan when it was pushed again can be.
 */
module Grace {
  import opened Base
  import opened Tables
  import opened Collector

  datatype Gc =
    | Idle
    | Rows(before: Option<Time>, pending: set<Digest>)          // listed orphans not yet deleted
    | Listed(seen: set<Digest>)                                 // ListDigests returned
    | Files(cutoff: Time, todo: set<Digest>)
    | Judged(cutoff: Time, todo: set<Digest>, it: Digest)       // IsBlobReferenced said no
    | Condemned(cutoff: Time, todo: set<Digest>, it: Digest)    // and its mtime was old
    | Repairing(cutoff: Time, todo: set<Digest>, it: Digest)    // IsBlobReferenced said yes

  datatype State = State(db: Db, disk: map<Digest, Stored>, clock: Time, gc: Gc)

  datatype Step =
    // writers
    | PutBytes(d: Digest, size: nat, mtime: Time)
    | PutRow(d: Digest, size: nat, mediaType: Option<nat>, local: bool)
    | Commit(v: VersionKey, subject: Option<Digest>, source: Option<Actor>, refs: set<Digest>)
    | Drop(gone: set<VersionKey>)            // prune, manifest delete
    | Mark(d: Digest, local: bool)           // drift reconcile
    | Outside(d: Digest, bytes: bool)        // any other deleter of a row or a file
    | Elsewhere(db: Db)                      // tables that hold neither blobs nor references
    | Tick(now: Time)
    // collector
    | StartRows | ListOrphans(picked: set<Digest>) | DeleteRow(d: Digest) | FailRow(d: Digest) | EndRows
    | ListDisk | StartFiles(todo: set<Digest>) | Judge(d: Digest) | Repair | Stat | Unlink | FailFile | EndFiles

  ghost predicate Next(grace: nat, s: State, step: Step, s': State) {
    match step
    case PutBytes(d, size, mtime) => mtime <= s.clock && s' == s.(disk := s.disk[d := Stored(size, mtime)])
    case PutRow(d, size, mt, local) => s' == s.(db := PutBlob(s.db, d, size, mt, local, s.clock))
    case Commit(v, subject, source, refs) =>
      s' == s.(db := PutManifestWithLayers(s.db, v, subject, source, refs, s.clock).0)
    case Drop(gone) => s' == s.(db := DropVersions(s.db, gone))
    case Mark(d, local) => s' == s.(db := SetLocal(s.db, d, local))
    case Outside(d, bytes) => s' == if bytes then s.(disk := s.disk - {d}) else s.(db := DeleteBlob(s.db, d))
    case Elsewhere(db) => s' == s.(db := db.(blobs := s.db.blobs, files := s.db.files))
    case Tick(now) => s.clock <= now && s' == s.(clock := now)
    case StartRows =>
      s.gc.Idle? && s' == s.(gc := Rows(if 0 < grace then Some(s.clock - grace) else None, {}))
    case ListOrphans(picked) =>
      && s.gc.Rows? && s.gc.pending == {} && (forall d :: d in picked ==> Orphan(s.db, d, s.gc.before))
      && s' == s.(gc := s.gc.(pending := picked))
    case DeleteRow(d) =>
      && s.gc.Rows? && d in s.gc.pending
      && s' == s.(db := DeleteBlob(s.db, d), gc := s.gc.(pending := s.gc.pending - {d}))
    case FailRow(d) => s.gc.Rows? && s' == s.(gc := s.gc.(pending := s.gc.pending - {d}))
    case EndRows => s.gc.Rows? && s' == s.(gc := Idle)
    case ListDisk => s.gc.Idle? && s' == s.(gc := Listed(s.disk.Keys))
    case StartFiles(todo) => s.gc.Listed? && todo <= s.gc.seen && s' == s.(gc := Files(s.clock - grace, todo))
    case Judge(d) =>
      && s.gc.Files? && d in s.gc.todo
      && var rest := s.gc.todo - {d};
         s' == s.(gc := if Referenced(s.db, d) then Repairing(s.gc.cutoff, rest, d)
                        else if 0 < grace then Judged(s.gc.cutoff, rest, d)
                        else Condemned(s.gc.cutoff, rest, d))
    case Repair =>
      && s.gc.Repairing? && s.gc.it in s.disk
      && s' == s.(db := PutBlob(s.db, s.gc.it, s.disk[s.gc.it].size, None, true, s.clock),
                  gc := Files(s.gc.cutoff, s.gc.todo))
    case Stat =>
      && s.gc.Judged?
      && s' == s.(gc := if s.gc.it in s.disk && s.disk[s.gc.it].mtime <= s.gc.cutoff
                        then Condemned(s.gc.cutoff, s.gc.todo, s.gc.it)
                        else Files(s.gc.cutoff, s.gc.todo))
    case Unlink =>
      s.gc.Condemned? && s' == s.(disk := s.disk - {s.gc.it}, gc := Files(s.gc.cutoff, s.gc.todo))
    case FailFile =>
      && (s.gc.Judged? || s.gc.Condemned? || s.gc.Repairing?)
      && s' == s.(gc := Files(s.gc.cutoff, s.gc.todo))
    case EndFiles => s.gc.Files? && s' == s.(gc := Idle)
  }

  ghost predicate Run(grace: nat, ss: seq<State>, steps: seq<Step>) {
    |ss| == |steps| + 1 && forall i :: 0 <= i < |steps| ==> Next(grace, ss[i], steps[i], ss[i + 1])
  }

  lemma RunCons(grace: nat, s: State, step: Step, ss: seq<State>, steps: seq<Step>)
    requires Run(grace, ss, steps) && Next(grace, s, step, ss[0])
    ensures Run(grace, [s] + ss, [step] + steps)
  {
    forall i | 0 <= i < |steps| + 1 ensures Next(grace, ([s] + ss)[i], ([step] + steps)[i], ([s] + ss)[i + 1]) {
      assert 0 < i ==> Next(grace, ss[i - 1], steps[i - 1], ss[i]);
    }
  }

  // ---- what the pusher promises --------------------------------------------

  ghost predicate Absent(s: State, d: Digest) {
    d !in s.db.blobs && d !in s.disk
  }

  /** The collector's cutoffs lie at least a grace period back. */
  ghost predicate Timely(grace: nat, s: State) {
    match s.gc
    case Idle => true
    case Listed(_) => true
    case Rows(before, _) => (before.Some? <==> 0 < grace) && (before.Some? ==> before.value + grace <= s.clock)
    case Files(cutoff, _) => cutoff + grace <= s.clock
    case Judged(cutoff, _, _) => 0 < grace && cutoff + grace <= s.clock
    case Condemned(cutoff, _, _) => cutoff + grace <= s.clock
    case Repairing(cutoff, _, _) => cutoff + grace <= s.clock
  }

  /** Every state of a run that starts with the collector idle is timely. */
  lemma StepKeepsTimely(grace: nat, s: State, step: Step, s': State)
    requires Timely(grace, s) && Next(grace, s, step, s')
    ensures Timely(grace, s')
  {
  }

  /**
   The collector will delete `d` without looking again: its row is on the delete list, its file
   is condemned, or, without a grace period, its file is listed.
   */
  ghost predicate Threatened(grace: nat, gc: Gc, d: Digest) {
    match gc
    case Idle => false
    case Rows(_, pending) => d in pending
    case Listed(seen) => grace == 0 && d in seen
    case Files(_, todo) => grace == 0 && d in todo
    case Judged(_, todo, _) => grace == 0 && d in todo
    case Condemned(_, todo, it) => it == d || (grace == 0 && d in todo)
    case Repairing(_, todo, _) => grace == 0 && d in todo
  }

  /** `d` is new to the node, and a file judged before has no claim on one written at `m`. */
  ghost predicate NewTo(grace: nat, s: State, d: Digest, m: Time) {
    && Absent(s, d) && Timely(grace, s) && !Threatened(grace, s.gc, d)
    && (s.gc.Judged? && s.gc.it == d ==> s.gc.cutoff < m)
  }

  /** The step records `d` no earlier than `m`, and only the collector may delete it. */
  ghost predicate Respects(s: State, step: Step, d: Digest, m: Time) {
    match step
    case PutBytes(e, _, mtime) => e == d ==> m <= mtime
    case PutRow(e, _, _, _) => e == d ==> m <= s.clock
    case Outside(e, _) => e != d
    case _ => true
  }

  /** Once the grace period is over, some manifest lists `d`. */
  ghost predicate InTime(grace: nat, s: State, d: Digest, m: Time) {
    m + grace <= s.clock ==> Referenced(s.db, d)
  }

  /** A run in which `d` is pushed from time `m` on and listed in time. */
  ghost predicate Kept(grace: nat, ss: seq<State>, steps: seq<Step>, d: Digest, m: Time) {
    && Run(grace, ss, steps)
    && forall i :: 0 <= i < |steps| ==> Respects(ss[i], steps[i], d, m) && InTime(grace, ss[i], d, m)
  }

  // ---- the invariant -------------------------------------------------------

  ghost predicate GcHarmless(grace: nat, s: State, d: Digest, m: Time) {
    && Timely(grace, s)
    && (s.gc.Rows? ==> d !in s.gc.pending)
    && (s.gc.Judged? && s.gc.it == d ==> s.gc.cutoff < m)
    && (s.gc.Condemned? ==> s.gc.it != d)
    && (grace == 0 && Threatened(grace, s.gc, d) ==> m <= s.clock)
  }

  ghost predicate Inv(grace: nat, s: State, d: Digest, m: Time) {
    && (d in s.db.blobs ==> m <= s.db.blobs[d].created <= s.clock)
    && (d in s.disk ==> m <= s.disk[d].mtime <= s.clock)
    && GcHarmless(grace, s, d, m)
  }

  lemma StepKeepsGc(grace: nat, s: State, step: Step, s': State, d: Digest, m: Time)
    requires Inv(grace, s, d, m) && Next(grace, s, step, s') && InTime(grace, s, d, m)
    ensures GcHarmless(grace, s', d, m)
  {
    match step
    case ListOrphans(picked) => assert d in picked ==> Orphan(s.db, d, s.gc.before);
    case _ =>
  }

  lemma StepKeepsRow(grace: nat, s: State, step: Step, s': State, d: Digest, m: Time)
    requires Inv(grace, s, d, m) && Next(grace, s, step, s') && Respects(s, step, d, m)
    ensures d in s'.db.blobs ==> m <= s'.db.blobs[d].created <= s'.clock
    ensures d in s.db.blobs ==> d in s'.db.blobs
  {
  }

  lemma StepKeepsFile(grace: nat, s: State, step: Step, s': State, d: Digest, m: Time)
    requires Inv(grace, s, d, m) && Next(grace, s, step, s') && Respects(s, step, d, m)
    ensures d in s'.disk ==> m <= s'.disk[d].mtime <= s'.clock
    ensures d in s.disk ==> d in s'.disk
  {
  }

  lemma StepKeepsInv(grace: nat, s: State, step: Step, s': State, d: Digest, m: Time)
    requires Inv(grace, s, d, m) && Next(grace, s, step, s')
    requires Respects(s, step, d, m) && InTime(grace, s, d, m)
    ensures Inv(grace, s', d, m)
    ensures d in s.db.blobs ==> d in s'.db.blobs
    ensures d in s.disk ==> d in s'.disk
  {
    StepKeepsGc(grace, s, step, s', d, m);
    StepKeepsRow(grace, s, step, s', d, m);
    StepKeepsFile(grace, s, step, s', d, m);
  }

  lemma {:induction false} RunKeepsInv(grace: nat, ss: seq<State>, steps: seq<Step>, d: Digest, m: Time, n: nat)
    requires Kept(grace, ss, steps, d, m) && n < |ss| && NewTo(grace, ss[0], d, m)
    ensures Inv(grace, ss[n], d, m)
    ensures 0 < n ==> (d in ss[n - 1].db.blobs ==> d in ss[n].db.blobs) && (d in ss[n - 1].disk ==> d in ss[n].disk)
  {
    if n == 0 {
    } else {
      RunKeepsInv(grace, ss, steps, d, m, n - 1);
      StepKeepsInv(grace, ss[n - 1], steps[n - 1], ss[n], d, m);
    }
  }

  /**
   In every interleaving, a digest that is new to the node, whatever the collector is doing, and
   that manifests list from m + grace on, keeps its row and its bytes from the moment each is
   written.
   */
  lemma GraceProtects(grace: nat, ss: seq<State>, steps: seq<Step>, d: Digest, m: Time, i: nat, j: nat)
    requires Kept(grace, ss, steps, d, m) && i <= j < |ss| && NewTo(grace, ss[0], d, m)
    ensures d in ss[i].db.blobs ==> d in ss[j].db.blobs
    ensures d in ss[i].disk ==> d in ss[j].disk
  {
    var rows := seq(|ss|, k requires 0 <= k < |ss| => d in ss[k].db.blobs);
    var files := seq(|ss|, k requires 0 <= k < |ss| => d in ss[k].disk);
    forall k | 0 <= k < |ss| - 1 ensures (rows[k] ==> rows[k + 1]) && (files[k] ==> files[k + 1]) {
      RunKeepsInv(grace, ss, steps, d, m, k + 1);
    }
    StaysTrue(rows, i, j);
    StaysTrue(files, i, j);
  }

  // ---- exactly when a new digest is safe -----------------------------------

  ghost predicate LostAt(ss: seq<State>, d: Digest, i: nat)
    requires i + 1 < |ss|
  {
    || (d in ss[i].db.blobs && d !in ss[i + 1].db.blobs)
    || (d in ss[i].disk && d !in ss[i + 1].disk)
  }

  ghost predicate Loses(ss: seq<State>, d: Digest) {
    exists i: nat :: i + 1 < |ss| && LostAt(ss, d, i)
  }

  /** Some run that pushes `d` after this moment and lists it in time loses its row or its bytes. */
  ghost predicate Endangered(grace: nat, s: State, d: Digest) {
    exists m, ss, steps :: s.clock <= m && Kept(grace, ss, steps, d, m) && ss[0] == s && Loses(ss, d)
  }

  lemma KeptCons(grace: nat, s: State, step: Step, ss: seq<State>, steps: seq<Step>, d: Digest, m: Time)
    requires Kept(grace, ss, steps, d, m) && Next(grace, s, step, ss[0])
    requires Respects(s, step, d, m) && InTime(grace, s, d, m)
    ensures Kept(grace, [s] + ss, [step] + steps, d, m)
    ensures Loses(ss, d) ==> Loses([s] + ss, d)
  {
    RunCons(grace, s, step, ss, steps);
    var all, done := [s] + ss, [step] + steps;
    forall i | 0 <= i < |done| ensures Respects(all[i], done[i], d, m) && InTime(grace, all[i], d, m) {
      assert 0 < i ==> Respects(ss[i - 1], steps[i - 1], d, m) && InTime(grace, ss[i - 1], d, m);
    }
    if i: nat :| i + 1 < |ss| && LostAt(ss, d, i) {
      assert LostAt(all, d, i + 1);
    }
  }

  /** The row is on the delete list or the file condemned. */
  ghost predicate Armed(gc: Gc, d: Digest) {
    (gc.Rows? && d in gc.pending) || (gc.Condemned? && gc.it == d)
  }

  /** The collector deletes what it has listed or condemned, although it has been written and listed since. */
  lemma LastBlow(grace: nat, s: State, d: Digest, m: Time) returns (ss: seq<State>, steps: seq<Step>)
    requires Absent(s, d) && Armed(s.gc, d) && m <= s.clock && Referenced(s.db, d)
    ensures Kept(grace, ss, steps, d, m) && ss[0] == s && Loses(ss, d)
  {
    if s.gc.Rows? {
      var s1 := s.(db := PutBlob(s.db, d, 0, None, true, s.clock));
      var s2 := s1.(db := DeleteBlob(s1.db, d), gc := s1.gc.(pending := s1.gc.pending - {d}));
      ss, steps := [s, s1, s2], [PutRow(d, 0, None, true), DeleteRow(d)];
      assert Referenced(s1.db, d);
    } else {
      var s1 := s.(disk := s.disk[d := Stored(0, s.clock)]);
      var s2 := s1.(disk := s1.disk - {d}, gc := Files(s1.gc.cutoff, s1.gc.todo));
      ss, steps := [s, s1, s2], [PutBytes(d, 0, s.clock), Unlink];
    }
    assert LostAt(ss, d, 1);
  }

  /** A package to commit into: one that is there, or the first one, newly created. */
  ghost function Home(db: Db): (r: (Db, Id))
    ensures r.1 in r.0.packages && r.0 == db.(packages := r.0.packages, nextPackage := r.0.nextPackage)
  {
    if db.packages == map[] then
      assert !exists i :: Named(db, i, Oci, 1);
      (GetOrCreatePackage(db, Oci, 1, 1).0, db.nextPackage)
    else
      var i :| i in db.packages;
      (db, i)
  }

  lemma CommitReferences(db: Db, v: VersionKey, d: Digest, now: Time)
    requires v.pkg in db.packages
    ensures var after := PutManifestWithLayers(db, v, None, None, {d}, now).0;
            Referenced(after, d) && after.blobs == db.blobs
  {
    assert FileRow(v, d) in PutManifestWithLayers(db, v, None, None, {d}, now).0.files;
  }

  lemma ArmedIsLost(grace: nat, s: State, d: Digest, pkg: Id) returns (ss: seq<State>, steps: seq<Step>)
    requires Absent(s, d) && Armed(s.gc, d) && pkg in s.db.packages
    ensures Kept(grace, ss, steps, d, s.clock + 1) && ss[0] == s && Loses(ss, d)
  {
    var v, m := VersionKey(pkg, 1), s.clock + 1;
    var s2 := s.(db := PutManifestWithLayers(s.db, v, None, None, {d}, s.clock).0);
    var s3 := s2.(clock := m);
    CommitReferences(s.db, v, d, s.clock);
    ss, steps := LastBlow(grace, s3, d, m);
    KeptCons(grace, s2, Tick(m), ss, steps, d, m);
    ss, steps := [s2] + ss, [Tick(m)] + steps;
    KeptCons(grace, s, Commit(v, None, None, {d}), ss, steps, d, m);
    ss, steps := [s] + ss, [Commit(v, None, None, {d})] + steps;
  }

  lemma ArmedIsEndangered(grace: nat, s: State, d: Digest) returns (ss: seq<State>, steps: seq<Step>)
    requires Absent(s, d) && Armed(s.gc, d)
    ensures Kept(grace, ss, steps, d, s.clock + 1) && ss[0] == s && Loses(ss, d)
  {
    var s1 := s.(db := Home(s.db).0);
    ss, steps := ArmedIsLost(grace, s1, d, Home(s.db).1);
    KeptCons(grace, s, Elsewhere(s1.db), ss, steps, d, s.clock + 1);
    ss, steps := [s] + ss, [Elsewhere(s1.db)] + steps;
  }

  /** Without a grace period a listed file is condemned as soon as it is judged unreferenced. */
  lemma ListedIsEndangered(s: State, d: Digest) returns (ss: seq<State>, steps: seq<Step>)
    requires Absent(s, d) && s.gc.Files? && d in s.gc.todo
    ensures Kept(0, ss, steps, d, s.clock + 1) && ss[0] == s && Loses(ss, d)
  {
    var owners := set f | f in s.db.files :: f.owner;
    var s1 := s.(db := DropVersions(s.db, owners));
    assert s1.db.files == {};
    var s2 := s1.(gc := Condemned(s1.gc.cutoff, s1.gc.todo - {d}, d));
    ss, steps := ArmedIsEndangered(0, s2, d);
    KeptCons(0, s1, Judge(d), ss, steps, d, s.clock + 1);
    ss, steps := [s1] + ss, [Judge(d)] + steps;
    KeptCons(0, s, Drop(owners), ss, steps, d, s.clock + 1);
    ss, steps := [s] + ss, [Drop(owners)] + steps;
  }

  lemma ThreatenedIsEndangered(grace: nat, s: State, d: Digest) returns (ss: seq<State>, steps: seq<Step>)
    requires Absent(s, d) && Timely(grace, s) && Threatened(grace, s.gc, d)
    ensures Kept(grace, ss, steps, d, s.clock + 1) && ss[0] == s && Loses(ss, d)
  {
    if Armed(s.gc, d) {
      ss, steps := ArmedIsEndangered(grace, s, d);
    } else if s.gc.Files? {
      ss, steps := ListedIsEndangered(s, d);
    } else {
      var step := if s.gc.Listed? then StartFiles({d}) else FailFile;
      var s1 := s.(gc := if s.gc.Listed? then Files(s.clock, {d}) else Files(s.gc.cutoff, s.gc.todo));
      ss, steps := ListedIsEndangered(s1, d);
      KeptCons(0, s, step, ss, steps, d, s.clock + 1);
      ss, steps := [s] + ss, [step] + steps;
    }
  }

  /**
   The exact split: a digest that is absent now can lose its row or its bytes in a run that pushes
   it later and lists it in time if and only if the collector still has it on its delete list or
   condemned, or, without a grace period, among the files it has listed.
   */
  lemma EndangeredIff(grace: nat, s: State, d: Digest)
    requires Absent(s, d) && Timely(grace, s)
    ensures Endangered(grace, s, d) <==> Threatened(grace, s.gc, d)
  {
    if Threatened(grace, s.gc, d) {
      var ss, steps := ThreatenedIsEndangered(grace, s, d);
    } else if Endangered(grace, s, d) {
      var m, ss, steps :| s.clock <= m && Kept(grace, ss, steps, d, m) && ss[0] == s && Loses(ss, d);
      var i: nat :| i + 1 < |ss| && LostAt(ss, d, i);
      GraceProtects(grace, ss, steps, d, m, i, i + 1);
    }
  }

  /**
   A run to such a state: the collector lists an old orphan, someone else deletes its row first, and
   the collector is left with a digest on its delete list that is new to the node.
   */
  lemma ThreatIsReachable(grace: nat) returns (ss: seq<State>, steps: seq<Step>)
    ensures Run(grace, ss, steps) && ss[0].gc.Idle?
    ensures Absent(ss[|steps|], 7) && Threatened(grace, ss[|steps|].gc, 7)
  {
    var row := Blob(0, None, true, 0);
    var db := Db(map[], 1, map[], 1, {}, map[], map[7 := row], map[], map[], map[]);
    var s0 := State(db, map[], grace + 1, Idle);
    var before := if 0 < grace then Some(s0.clock - grace) else None;
    var s1 := s0.(gc := Rows(before, {}));
    var s2 := s0.(gc := Rows(before, {7}));
    var s3 := s2.(db := DeleteBlob(db, 7));
    assert Orphan(db, 7, before);
    RunCons(grace, s2, Outside(7, false), [s3], []);
    RunCons(grace, s1, ListOrphans({7}), [s2] + [s3], [Outside(7, false)] + []);
    RunCons(grace, s0, StartRows, [s1] + ([s2] + [s3]), [ListOrphans({7})] + ([Outside(7, false)] + []));
    ss := [s0] + ([s1] + ([s2] + [s3]));
    steps := [StartRows] + ([ListOrphans({7})] + ([Outside(7, false)] + []));
    assert ss[3] == s3;
  }

  /** A node with one old file that nothing refers to. */
  function Littered(grace: nat, gc: Gc): State {
    State(Db(map[], 1, map[], 1, {}, map[], map[], map[], map[], map[]), map[7 := Stored(0, 0)], grace + 1, gc)
  }

  /** The collector lists the file and takes it up. */
  lemma LitterIsListed(grace: nat)
    ensures Next(grace, Littered(grace, Idle), ListDisk, Littered(grace, Listed({7})))
    ensures Next(grace, Littered(grace, Listed({7})), StartFiles({7}), Littered(grace, Files(1, {7})))
  {
    assert Littered(grace, Idle).disk.Keys == {7};
  }

  /** Nothing lists it, and it is old. */
  lemma LitterIsCondemned(grace: nat)
    ensures var to := if 0 < grace then Judged(1, {}, 7) else Condemned(1, {}, 7);
            Next(grace, Littered(grace, Files(1, {7})), Judge(7), Littered(grace, to))
    ensures Next(grace, Littered(grace, Judged(1, {}, 7)), Stat, Littered(grace, Condemned(1, {}, 7)))
  {
    var s := Littered(grace, Files(1, {7}));
    assert s.gc.todo - {7} == {} && !Referenced(s.db, 7);
  }

  /** A run to a condemned file: unlisted, without a row, and older than the grace period. */
  lemma CondemnedIsReachable(grace: nat) returns (ss: seq<State>, steps: seq<Step>)
    ensures Run(grace, ss, steps) && ss[0].gc.Idle?
    ensures var s := ss[|steps|]; s.gc.Condemned? && s.gc.it == 7 && 7 in s.disk
  {
    var s0, s1, s2 := Littered(grace, Idle), Littered(grace, Listed({7})), Littered(grace, Files(1, {7}));
    var s3, s4 := Littered(grace, Judged(1, {}, 7)), Littered(grace, Condemned(1, {}, 7));
    LitterIsListed(grace);
    LitterIsCondemned(grace);
    if 0 < grace {
      ss, steps := [s0, s1, s2, s3, s4], [ListDisk, StartFiles({7}), Judge(7), Stat];
    } else {
      ss, steps := [s0, s1, s2, s4], [ListDisk, StartFiles({7}), Judge(7)];
    }
  }

  // ---- what was listed or condemned can be lost ----------------------------

  /** PutBlob renews neither the creation time nor the standing of an orphan row. */
  lemma PushingAgainStaysOrphan(db: Db, d: Digest, size: nat, mediaType: Option<nat>, local: bool, now: Time, before: Option<Time>)
    requires Orphan(db, d, before)
    ensures Orphan(PutBlob(db, d, size, mediaType, local, now), d, before)
  {
    var after := PutBlob(db, d, size, mediaType, local, now);
    assert Referenced(after, d) == Referenced(db, d) && HasPeer(after, d) == HasPeer(db, d);
  }

  ghost predicate OnDeleteList(s: State, d: Digest) {
    s.gc.Rows? && d in s.gc.pending
  }

  ghost predicate Unlists(step: Step, d: Digest) {
    step == DeleteRow(d) || step == FailRow(d) || step.EndRows? || step.ListOrphans?
  }

  /** Step k listed `d` as an orphan older than the cutoff, and it has not been dealt with before n. */
  ghost predicate ListedAt(ss: seq<State>, steps: seq<Step>, k: nat, n: nat, d: Digest)
    requires |ss| == |steps| + 1 && n <= |steps|
  {
    && k < n && steps[k].ListOrphans? && d in steps[k].picked
    && ss[k].gc.Rows? && Orphan(ss[k].db, d, ss[k].gc.before)
    && forall j :: k < j < n ==> !Unlists(steps[j], d)
  }

  lemma StepOnDeleteList(grace: nat, s: State, step: Step, s': State, d: Digest)
    requires Next(grace, s, step, s')
    ensures OnDeleteList(s', d) <==>
              (OnDeleteList(s, d) && !Unlists(step, d)) || (step.ListOrphans? && d in step.picked)
    ensures step.ListOrphans? && d in step.picked ==> s.gc.Rows? && Orphan(s.db, d, s.gc.before)
  {
  }

  lemma OnDeleteListIff(grace: nat, ss: seq<State>, steps: seq<Step>, d: Digest)
    requires Run(grace, ss, steps) && ss[0].gc.Idle?
    ensures OnDeleteList(ss[|steps|], d) <==> exists k :: ListedAt(ss, steps, k, |steps|, d)
  {
    var n := |steps|;
    var on := seq(|ss|, i requires 0 <= i < |ss| => OnDeleteList(ss[i], d));
    var did := seq(n, i requires 0 <= i < n => steps[i].ListOrphans? && d in steps[i].picked);
    var undid := seq(n, i requires 0 <= i < n => Unlists(steps[i], d));
    forall i | 0 <= i < n
      ensures on[i + 1] <==> (on[i] && !undid[i]) || did[i]
      ensures did[i] ==> ss[i].gc.Rows? && Orphan(ss[i].db, d, ss[i].gc.before)
    {
      StepOnDeleteList(grace, ss[i], steps[i], ss[i + 1], d);
    }
    GoesBack(on, did, undid, n);
    if on[n] {
      var k: nat :| Since(did, undid, k, n);
      forall j | k < j < n ensures !Unlists(steps[j], d) {
        assert !undid[j];
      }
      assert ListedAt(ss, steps, k, n, d);
    }
    if k :| ListedAt(ss, steps, k, n, d) {
      assert Since(did, undid, k, n);
    }
  }

  /** The last step deletes the row of a blob that a manifest lists. */
  ghost predicate RowLost(ss: seq<State>, steps: seq<Step>, d: Digest)
    requires |ss| == |steps| + 1
  {
    && steps != [] && steps[|steps| - 1] == DeleteRow(d)
    && d in ss[|steps| - 1].db.blobs && Referenced(ss[|steps| - 1].db, d) && d !in ss[|steps|].db.blobs
  }

  ghost predicate NoListing(steps: seq<Step>) {
    forall i :: 0 <= i < |steps| ==> !steps[i].ListOrphans?
  }

  /** Without another listing, the collector may still delete the row of `d` under a manifest that lists it. */
  ghost predicate CanLoseRow(grace: nat, s: State, d: Digest) {
    exists ss, steps :: Run(grace, ss, steps) && ss[0] == s && NoListing(steps) && RowLost(ss, steps, d)
  }

  lemma {:induction false} NoListingNoEntry(grace: nat, ss: seq<State>, steps: seq<Step>, n: nat, d: Digest)
    requires Run(grace, ss, steps) && NoListing(steps) && n < |ss| && OnDeleteList(ss[n], d)
    ensures OnDeleteList(ss[0], d)
  {
    if 0 < n {
      StepOnDeleteList(grace, ss[n - 1], steps[n - 1], ss[n], d);
      NoListingNoEntry(grace, ss, steps, n - 1, d);
    }
  }

  lemma OnDeleteListCanLose(grace: nat, s: State, d: Digest) returns (ss: seq<State>, steps: seq<Step>)
    requires OnDeleteList(s, d)
    ensures Run(grace, ss, steps) && ss[0] == s && NoListing(steps) && RowLost(ss, steps, d)
  {
    var v := VersionKey(Home(s.db).1, 1);
    var s1 := s.(db := Home(s.db).0);
    var s2 := s1.(db := PutBlob(s1.db, d, 0, None, true, s1.clock));
    var s3 := s2.(db := PutManifestWithLayers(s2.db, v, None, None, {d}, s2.clock).0);
    CommitReferences(s2.db, v, d, s2.clock);
    var s4 := s3.(db := DeleteBlob(s3.db, d), gc := s3.gc.(pending := s3.gc.pending - {d}));
    var c3, c2, c1 := DeleteRow(d), Commit(v, None, None, {d}), PutRow(d, 0, None, true);
    RunCons(grace, s3, c3, [s4], []);
    RunCons(grace, s2, c2, [s3] + [s4], [c3] + []);
    RunCons(grace, s1, c1, [s2] + ([s3] + [s4]), [c2] + ([c3] + []));
    RunCons(grace, s, Elsewhere(s1.db), [s1] + ([s2] + ([s3] + [s4])), [c1] + ([c2] + ([c3] + [])));
    ss := [s] + ([s1] + ([s2] + ([s3] + [s4])));
    steps := [Elsewhere(s1.db)] + ([c1] + ([c2] + ([c3] + [])));
    assert ss[3] == s3 && ss[4] == s4 && steps[3] == c3;
  }

  /**
   Exactly what can be lost: after any run, the collector may still delete the row of `d` under a
   manifest that lists it if and only if its last listing found `d` unreferenced and older than its
   cutoff. What is pushed or committed after the listing does not protect it.
   */
  lemma OldOrphanCanBeLostIff(grace: nat, ss: seq<State>, steps: seq<Step>, d: Digest)
    requires Run(grace, ss, steps) && ss[0].gc.Idle?
    ensures CanLoseRow(grace, ss[|steps|], d) <==> exists k :: ListedAt(ss, steps, k, |steps|, d)
  {
    var s := ss[|steps|];
    if CanLoseRow(grace, s, d) {
      var ts, more :| Run(grace, ts, more) && ts[0] == s && NoListing(more) && RowLost(ts, more, d);
      assert Next(grace, ts[|more| - 1], more[|more| - 1], ts[|more|]);
      NoListingNoEntry(grace, ts, more, |more| - 1, d);
    }
    if OnDeleteList(s, d) {
      var ts, more := OnDeleteListCanLose(grace, s, d);
    }
    OnDeleteListIff(grace, ss, steps, d);
  }

  // The same for the bytes.

  ghost predicate IsJudged(s: State, d: Digest) {
    s.gc.Judged? && s.gc.it == d
  }

  ghost predicate IsCondemned(s: State, d: Digest) {
    s.gc.Condemned? && s.gc.it == d
  }

  /** The collector found no file row that lists `d`. */
  ghost predicate Acquits(s: State, step: Step, d: Digest) {
    step == Judge(d) && !Referenced(s.db, d)
  }

  /** The collector found the file of `d`, judged before, to be older than its cutoff. */
  ghost predicate Condemns(s: State, step: Step, d: Digest) {
    step.Stat? && IsJudged(s, d) && d in s.disk && s.disk[d].mtime <= s.gc.cutoff
  }

  /** Step k judged `d` unreferenced, and its file has neither been looked at nor given up before n. */
  ghost predicate JudgedAt(ss: seq<State>, steps: seq<Step>, k: nat, n: nat, d: Digest)
    requires |ss| == |steps| + 1 && n <= |steps|
  {
    k < n && Acquits(ss[k], steps[k], d) && forall j :: k < j < n ==> !steps[j].Stat? && !steps[j].FailFile?
  }

  /**
   Step k condemned the file of `d`, and it has not been deleted or given up before n. With a grace
   period that was a look at its age after an earlier judgement; without one, the judgement itself.
   */
  ghost predicate CondemnedAt(grace: nat, ss: seq<State>, steps: seq<Step>, k: nat, n: nat, d: Digest)
    requires |ss| == |steps| + 1 && n <= |steps|
  {
    && k < n && (forall j :: k < j < n ==> !steps[j].Unlink? && !steps[j].FailFile?)
    && if grace == 0 then Acquits(ss[k], steps[k], d)
       else Condemns(ss[k], steps[k], d) && exists i :: JudgedAt(ss, steps, i, k, d)
  }

  lemma StepIsJudged(grace: nat, s: State, step: Step, s': State, d: Digest)
    requires Next(grace, s, step, s')
    ensures IsJudged(s', d) <==>
              (IsJudged(s, d) && !(step.Stat? || step.FailFile?)) || (0 < grace && Acquits(s, step, d))
  {
  }

  lemma StepIsCondemned(grace: nat, s: State, step: Step, s': State, d: Digest)
    requires Next(grace, s, step, s') && Timely(grace, s)
    ensures IsCondemned(s', d) <==>
              || (IsCondemned(s, d) && !(step.Unlink? || step.FailFile?))
              || (if grace == 0 then Acquits(s, step, d) else Condemns(s, step, d))
  {
  }

  lemma {:induction false} AlwaysTimely(grace: nat, ss: seq<State>, steps: seq<Step>, n: nat)
    requires Run(grace, ss, steps) && n < |ss| && ss[0].gc.Idle?
    ensures Timely(grace, ss[n])
  {
    if n != 0 {
      AlwaysTimely(grace, ss, steps, n - 1);
      StepKeepsTimely(grace, ss[n - 1], steps[n - 1], ss[n]);
    }
  }

  lemma JudgedIff(grace: nat, ss: seq<State>, steps: seq<Step>, n: nat, d: Digest)
    requires Run(grace, ss, steps) && ss[0].gc.Idle? && n <= |steps| && 0 < grace
    ensures IsJudged(ss[n], d) <==> exists k :: JudgedAt(ss, steps, k, n, d)
  {
    var on := seq(|ss|, i requires 0 <= i < |ss| => IsJudged(ss[i], d));
    var did := seq(|steps|, i requires 0 <= i < |steps| => Acquits(ss[i], steps[i], d));
    var undid := seq(|steps|, i requires 0 <= i < |steps| => steps[i].Stat? || steps[i].FailFile?);
    forall i | 0 <= i < |steps| ensures on[i + 1] <==> (on[i] && !undid[i]) || did[i] {
      StepIsJudged(grace, ss[i], steps[i], ss[i + 1], d);
    }
    GoesBack(on, did, undid, n);
    if on[n] {
      var k: nat :| Since(did, undid, k, n);
      forall j | k < j < n ensures !steps[j].Stat? && !steps[j].FailFile? {
        assert !undid[j];
      }
      assert JudgedAt(ss, steps, k, n, d);
    }
    if k :| JudgedAt(ss, steps, k, n, d) {
      assert Since(did, undid, k, n);
    }
  }

  lemma CondemnedIff(grace: nat, ss: seq<State>, steps: seq<Step>, d: Digest)
    requires Run(grace, ss, steps) && ss[0].gc.Idle?
    ensures IsCondemned(ss[|steps|], d) <==> exists k :: CondemnedAt(grace, ss, steps, k, |steps|, d)
  {
    var n := |steps|;
    var on := seq(|ss|, i requires 0 <= i < |ss| => IsCondemned(ss[i], d));
    var did := seq(n, i requires 0 <= i < n => if grace == 0 then Acquits(ss[i], steps[i], d) else Condemns(ss[i], steps[i], d));
    var undid := seq(n, i requires 0 <= i < n => steps[i].Unlink? || steps[i].FailFile?);
    forall i | 0 <= i < n ensures on[i + 1] <==> (on[i] && !undid[i]) || did[i] {
      AlwaysTimely(grace, ss, steps, i);
      StepIsCondemned(grace, ss[i], steps[i], ss[i + 1], d);
    }
    GoesBack(on, did, undid, n);
    if on[n] {
      var k: nat :| Since(did, undid, k, n);
      if 0 < grace {
        JudgedIff(grace, ss, steps, k, d);
      }
      forall j | k < j < n ensures !steps[j].Unlink? && !steps[j].FailFile? {
        assert !undid[j];
      }
      assert CondemnedAt(grace, ss, steps, k, n, d);
    }
    if k :| CondemnedAt(grace, ss, steps, k, n, d) {
      assert Since(did, undid, k, n);
    }
  }

  /** The last step deletes the bytes of a blob that a manifest lists. */
  ghost predicate FileLost(ss: seq<State>, steps: seq<Step>, d: Digest)
    requires |ss| == |steps| + 1
  {
    && steps != [] && steps[|steps| - 1].Unlink?
    && d in ss[|steps| - 1].disk && Referenced(ss[|steps| - 1].db, d) && d !in ss[|steps|].disk
  }

  ghost predicate NoJudging(steps: seq<Step>) {
    forall i :: 0 <= i < |steps| ==> !steps[i].Judge? && !steps[i].Stat?
  }

  /** Without another look, the collector may still delete the bytes of `d` under a manifest that lists it. */
  ghost predicate CanLoseFile(grace: nat, s: State, d: Digest) {
    exists ss, steps :: Run(grace, ss, steps) && ss[0] == s && NoJudging(steps) && FileLost(ss, steps, d)
  }

  lemma {:induction false} NoJudgingNoEntry(grace: nat, ss: seq<State>, steps: seq<Step>, n: nat, d: Digest)
    requires Run(grace, ss, steps) && NoJudging(steps) && n < |ss| && IsCondemned(ss[n], d)
    ensures IsCondemned(ss[0], d)
  {
    if 0 < n {
      assert Next(grace, ss[n - 1], steps[n - 1], ss[n]) && IsCondemned(ss[n - 1], d);
      NoJudgingNoEntry(grace, ss, steps, n - 1, d);
    }
  }

  lemma CondemnedCanLose(grace: nat, s: State, d: Digest) returns (ss: seq<State>, steps: seq<Step>)
    requires IsCondemned(s, d)
    ensures Run(grace, ss, steps) && ss[0] == s && NoJudging(steps) && FileLost(ss, steps, d)
  {
    var v := VersionKey(Home(s.db).1, 1);
    var s1 := s.(db := Home(s.db).0);
    var s2 := s1.(disk := s1.disk[d := Stored(0, s1.clock)]);
    var s3 := s2.(db := PutManifestWithLayers(s2.db, v, None, None, {d}, s2.clock).0);
    CommitReferences(s2.db, v, d, s2.clock);
    var s4 := s3.(disk := s3.disk - {d}, gc := Files(s3.gc.cutoff, s3.gc.todo));
    var c2, c1 := Commit(v, None, None, {d}), PutBytes(d, 0, s1.clock);
    RunCons(grace, s3, Unlink, [s4], []);
    RunCons(grace, s2, c2, [s3] + [s4], [Unlink] + []);
    RunCons(grace, s1, c1, [s2] + ([s3] + [s4]), [c2] + ([Unlink] + []));
    RunCons(grace, s, Elsewhere(s1.db), [s1] + ([s2] + ([s3] + [s4])), [c1] + ([c2] + ([Unlink] + [])));
    ss := [s] + ([s1] + ([s2] + ([s3] + [s4])));
    steps := [Elsewhere(s1.db)] + ([c1] + ([c2] + ([Unlink] + [])));
    assert ss[3] == s3 && ss[4] == s4 && steps[3] == Unlink;
  }

  /**
   After any run, the collector may still delete the bytes of `d` under a manifest that lists it if
   and only if it has condemned the file: it judged `d` unreferenced and then, with a grace period,
   found the file older than its cutoff. What is written or committed after that does not protect it.
   */
  lemma CondemnedFileCanBeLostIff(grace: nat, ss: seq<State>, steps: seq<Step>, d: Digest)
    requires Run(grace, ss, steps) && ss[0].gc.Idle?
    ensures CanLoseFile(grace, ss[|steps|], d) <==> exists k :: CondemnedAt(grace, ss, steps, k, |steps|, d)
  {
    var s := ss[|steps|];
    if CanLoseFile(grace, s, d) {
      var ts, more :| Run(grace, ts, more) && ts[0] == s && NoJudging(more) && FileLost(ts, more, d);
      assert Next(grace, ts[|more| - 1], more[|more| - 1], ts[|more|]);
      NoJudgingNoEntry(grace, ts, more, |more| - 1, d);
    }
    if IsCondemned(s, d) {
      var ts, more := CondemnedCanLose(grace, s, d);
    }
    CondemnedIff(grace, ss, steps, d);
  }
}

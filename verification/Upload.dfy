/**
 Chunked blob uploads: the disk-backed writer, the registry's `uploads` map and
 `upload_sessions` rows, and every interleaving of the requests and reapers that share
 them. A thread takes a lock, does the section's work, and releases the lock in a later
 step, so that what may run in between, and whether it may block, is explicit.
 */
module Upload {
  import opened Base

  type Byte = bv8
  type Bytes = seq<Byte>
  type Uid = nat
  type Tid = nat

  /** SHA-256, taken as injective: a digest is the constructor applied to the content. */
  datatype Digest = Sha256(content: Bytes)

  /**
   `file` is None once the staging file was closed and removed. The history fields count how
   often the commit callback and onDone were started.
   */
  datatype Writer = Writer(max: nat, file: Option<Bytes>, hashed: Bytes, size: nat, done: bool,
                           commits: nat, dones: nat)

  // ---- sections of the writer under its own lock ---------------------------

  /** How many bytes of p the file takes: none when refused or closed, otherwise up to n. */
  function Taken(w: Writer, p: Bytes, n: nat): nat {
    if w.done || w.size + |p| > w.max || w.file.None? then 0 else Minimum(n, |p|)
  }

  function Append(w: Writer, p: Bytes): Writer {
    w.(file := if w.file.Some? then Some(w.file.value + p) else None, hashed := w.hashed + p, size := w.size + |p|)
  }

  function Written(w: Writer, p: Bytes, n: nat): Writer {
    Append(w, p[..Taken(w, p, n)])
  }

  predicate WillCommit(w: Writer, d: Digest) {
    !w.done && Sha256(w.hashed) == d && w.file.Some?
  }

  datatype CommitResult = AlreadyDone | Mismatch | NoData | Ready

  class DiskBlobWriter {
    const max: nat
    var file: Option<Bytes>
    var hashed: Bytes
    var size: nat
    var done: bool

    ghost function Value(commits: nat, dones: nat): Writer
      reads this
    {
      Writer(max, file, hashed, size, done, commits, dones)
    }

    constructor (max: nat)
      ensures Value(0, 0) == Writer(max, Some([]), [], 0, false, 0, 0)
    {
      this.max := max;
      file, hashed, size, done := Some([]), [], 0, false;
    }

    /** `n` is what the operating system is able to write. */
    method Write(p: Bytes, n: nat) returns (written: nat, ok: bool)
      modifies this
      ensures forall c, d :: Value(c, d) == Written(old(Value(c, d)), p, n)
      ensures written == Taken(old(Value(0, 0)), p, n)
      ensures ok <==> !old(done) && old(size) + |p| <= max && old(file).Some? && |p| <= n
      ensures ok ==> written == |p| && hashed == old(hashed) + p && size == old(size) + |p| && file == Some(old(file).value + p)
    {
      assert p[..0] == [] && hashed + [] == hashed && (file.Some? ==> file.value + [] == file.value);
      if done {
        return 0, false;
      }
      if size + |p| > max {
        return 0, false;
      }
      if file.None? {
        return 0, false;
      }
      written := if n <= |p| then n else |p|;
      assert written == |p| ==> p[..written] == p;
      file := Some(file.value + p[..written]);
      size := size + written;
      hashed := hashed + p[..written];
      ok := written == |p|;
    }

    /** Commit up to the point where the callback may start. */
    method BeginCommit(d: Digest) returns (r: CommitResult)
      modifies this`done
      ensures done
      ensures r == AlreadyDone <==> old(done)
      ensures r == Ready <==> WillCommit(old(Value(0, 0)), d)
      ensures r == NoData ==> Sha256(hashed) == d && file.None?
    {
      if done {
        return AlreadyDone;
      }
      done := true;
      var computed := Sha256(hashed);
      if computed != d {
        return Mismatch;
      }
      if file.None? {
        return NoData;
      }
      return Ready;
    }

    /** cleanup's section; `first` tells whether onDone is to run. */
    method Release() returns (first: bool)
      modifies this`file
      ensures file.None? && (first <==> old(file).Some?)
    {
      first := file.Some?;
      file := None;
    }
  }

  // ---- threads -------------------------------------------------------------

  datatype Lock = Registry | OfWriter(id: Uid)

  /** What a thread does after `cleanup` returned. */
  datatype Then = Return | DropRow

  datatype Pc =
    | Idle
    | Registering(id: Uid)                  // newUploadWriter
    | Creating(id: Uid)                     // CreateUploadSession
    | Discarding(id: Uid)                   // its failure path
    | Looking(id: Uid)                      // resume: session seen, map not yet read
    | Holding(id: Uid)                      // a request that has the writer
    | Writing(id: Uid, p: Bytes)
    | Committing(id: Uid, d: Digest)
    | Syncing(id: Uid, d: Digest)
    | Calling(id: Uid, d: Digest)           // the commit callback starts
    | Storing(id: Uid, d: Digest)
    | Cancelling(id: Uid)
    | Cleaning(id: Uid, after: Then)
    | Finishing(id: Uid, after: Then)        // onDone starts
    | Erasing(id: Uid, after: Then)
    | Reaping(id: Uid)                      // session listed as expired or to be purged
    | DeletingRow(id: Uid)
    | Scanning                              // sweepStaleStagingFiles before its lock
    | Sweeping(todo: set<Uid>)              // holds the registry lock

  /** A thread inside a lock has done that section's work and has yet to release the lock. */
  datatype Thread = Thread(at: Pc, inside: Option<Lock>)

  datatype Choice = Choice(id: Uid, max: nat, n: nat, p: Bytes, d: Digest, ok: bool, op: nat)

  /** `erased` holds the uploads whose onDone also deleted the session row. */
  datatype State = State(writers: map<Uid, Writer>, uploads: set<Uid>, sessions: set<Uid>,
                         blobs: map<Digest, Bytes>, erased: set<Uid>, threads: map<Tid, Thread>)

  function Holds(th: Thread): set<Lock> {
    (if th.inside.Some? then {th.inside.value} else {}) + (if th.at.Sweeping? then {Registry} else {})
  }

  /** The lock a thread must take for its next section. */
  function Wants(pc: Pc, c: Choice): Option<Lock> {
    match pc
    case Registering(_) => Some(Registry)
    case Discarding(_) => Some(Registry)
    case Looking(_) => Some(Registry)
    case Calling(_, _) => Some(Registry)
    case Finishing(_, _) => Some(Registry)
    case Reaping(_) => Some(Registry)
    case Scanning => Some(Registry)
    case Writing(id, _) => Some(OfWriter(id))
    case Committing(id, _) => Some(OfWriter(id))
    case Cancelling(id) => Some(OfWriter(id))
    case Cleaning(id, _) => Some(OfWriter(id))
    case Sweeping(todo) => if c.id in todo then Some(OfWriter(c.id)) else None
    case _ => None
  }

  predicate Free(s: State, l: Lock) {
    forall t :: t in s.threads ==> l !in Holds(s.threads[t])
  }

  predicate Enabled(s: State, t: Tid, c: Choice) {
    && t in s.threads
    && var th := s.threads[t];
       th.inside.None? ==>
         && (Wants(th.at, c).Some? ==> Free(s, Wants(th.at, c).value))
         && (th.at.Sweeping? ==> th.at.todo == {} || c.id in th.at.todo)
  }

  function Resume(id: Uid, after: Then): Pc {
    if after == Return then Holding(id) else DeletingRow(id)
  }

  /** The next point of a thread at pc that makes choice c. */
  function Advance(s: State, pc: Pc, c: Choice): Pc {
    match pc
    case Idle =>
      if c.op == 0 && c.id !in s.writers then Registering(c.id)
      else if c.op == 1 && c.id in s.sessions then Looking(c.id)
      else if c.op == 2 && c.id in s.sessions then Reaping(c.id)
      else if c.op == 3 then Scanning
      else Idle
    case Registering(id) => Creating(id)
    case Creating(id) => if c.ok then Holding(id) else Discarding(id)
    case Discarding(id) => Cancelling(id)
    case Looking(id) => if id in s.uploads then Holding(id) else DeletingRow(id)
    case Holding(id) =>
      if c.op == 0 then Writing(id, c.p)
      else if c.op == 1 then Committing(id, c.d)
      else if c.op == 2 then Cancelling(id)
      else Idle
    case Writing(id, _) => Holding(id)
    case Committing(id, d) =>
      if id in s.writers && WillCommit(s.writers[id], d) then Syncing(id, d)
      else if id in s.writers && s.writers[id].done then Holding(id)
      else Cleaning(id, Return)
    case Syncing(id, d) => if c.ok && id in s.writers && s.writers[id].file.Some? then Calling(id, d) else Cleaning(id, Return)
    case Calling(id, d) => Storing(id, d)
    case Storing(id, _) => Cleaning(id, Return)
    case Cancelling(id) => Cleaning(id, Return)
    case Cleaning(id, after) =>
      if id in s.writers && s.writers[id].file.Some? then Finishing(id, after) else Resume(id, after)
    case Finishing(id, after) => Erasing(id, after)
    case Erasing(id, after) => Resume(id, after)
    case Reaping(id) => if id in s.uploads then Cleaning(id, DropRow) else DeletingRow(id)
    case DeletingRow(id) => Idle
    case Scanning => Sweeping(s.uploads)
    case Sweeping(todo) => if todo == {} then Idle else Sweeping(todo - {c.id})
  }

  function Update(s: State, id: Uid, w: Writer): State {
    s.(writers := s.writers[id := w])
  }

  /** The work of that step on the shared state. Row deletions and storage calls may fail. */
  function Effect(s: State, pc: Pc, c: Choice): State {
    match pc
    case Idle =>
      if c.op == 0 && c.id !in s.writers then Update(s, c.id, Writer(c.max, Some([]), [], 0, false, 0, 0))
      else if c.op == 4 then s.(sessions := s.sessions - {c.id}) // the repository was deleted
      else s
    case Registering(id) => s.(uploads := s.uploads + {id})
    case Creating(id) => if c.ok then s.(sessions := s.sessions + {id}) else s
    case Discarding(id) => s.(uploads := s.uploads - {id})
    case Reaping(id) => s.(uploads := s.uploads - {id})
    case Erasing(id, _) => if c.ok then s.(sessions := s.sessions - {id}, erased := s.erased + {id}) else s
    case DeletingRow(id) => if c.ok then s.(sessions := s.sessions - {id}) else s
    case Writing(id, p) => if id in s.writers then Update(s, id, Written(s.writers[id], p, c.n)) else s
    case Committing(id, _) => if id in s.writers then Update(s, id, s.writers[id].(done := true)) else s
    case Cancelling(id) => if id in s.writers then Update(s, id, s.writers[id].(done := true)) else s
    case Cleaning(id, _) => if id in s.writers then Update(s, id, s.writers[id].(file := None)) else s
    case Calling(id, _) =>
      if id in s.writers
      then Update(s, id, s.writers[id].(commits := s.writers[id].commits + 1)).(uploads := s.uploads - {id}) else s
    case Storing(id, d) =>
      if c.ok && id in s.writers && s.writers[id].file.Some?
      then s.(blobs := s.blobs[d := s.writers[id].file.value], sessions := if c.op == 0 then s.sessions - {id} else s.sessions)
      else s
    case Finishing(id, _) =>
      if id in s.writers
      then Update(s, id, s.writers[id].(dones := s.writers[id].dones + 1)).(uploads := s.uploads - {id}) else s
    case _ => s
  }

  /** The sweep keeps the registry lock it took; every other section is left by a release step. */
  function Moved(s: State, at: Pc, c: Choice): Thread {
    Thread(Advance(s, at, c), if at.Scanning? then None else Wants(at, c))
  }

  /** One step: release the lock of the last section, or do the next one. */
  function After(s: State, t: Tid, c: Choice): State
    requires t in s.threads
  {
    var th := s.threads[t];
    if th.inside.Some? then s.(threads := s.threads[t := th.(inside := None)])
    else Effect(s, th.at, c).(threads := s.threads[t := Moved(s, th.at, c)])
  }

  // ---- locks ---------------------------------------------------------------

  /** The registry lock is never requested under another lock, a writer's only under the registry's. */
  lemma LocksNestOneWay(th: Thread, c: Choice)
    requires th.inside.None?
    ensures Wants(th.at, c) == Some(Registry) ==> Holds(th) == {}
    ensures Wants(th.at, c).Some? ==> Holds(th) <= {Registry}
  {
  }

  predicate Quiet(th: Thread) {
    th == Thread(Idle, None)
  }

  /** As long as some thread is inside an operation, some such thread can move. */
  lemma NoDeadlock(s: State, t: Tid)
    requires t in s.threads && !Quiet(s.threads[t])
    ensures exists u, c :: Enabled(s, u, c) && !Quiet(s.threads[u])
  {
    var c := Choice(0, 0, 0, [], Sha256([]), true, 0);
    if u :| u in s.threads && s.threads[u].inside.Some? {
      assert Enabled(s, u, c);
    } else if u :| u in s.threads && s.threads[u].at.Sweeping? {
      var todo := s.threads[u].at.todo;
      if todo == {} {
        assert Enabled(s, u, c);
      } else {
        var id :| id in todo;
        assert Enabled(s, u, c.(id := id));
      }
    } else {
      assert Enabled(s, t, c);
    }
  }

  // ---- invariant -----------------------------------------------------------

  /** The upload a thread is working on. */
  function Of(pc: Pc): Option<Uid> {
    match pc
    case Idle => None
    case Scanning => None
    case Sweeping(_) => None
    case _ => Some(pc.id)
  }

  /** The creating request before its session row exists: nobody else can know the id. */
  predicate Private(pc: Pc) {
    pc.Registering? || pc.Creating?
  }

  predicate BeforeCallback(pc: Pc) {
    pc.Syncing? || pc.Calling?
  }

  predicate WriterOk(s: State, id: Uid)
    requires id in s.writers
  {
    var w := s.writers[id];
    && |w.hashed| == w.size <= w.max
    && (w.file.Some? ==> w.file.value == w.hashed)
    && w.dones <= 1 && w.commits <= 1
    && (w.file.Some? ==> w.dones == 0)
    && (!w.done ==> w.commits == 0)
    && (w.dones == 1 ==> id !in s.uploads)
  }

  predicate PointOk(s: State, p: Pc) {
    Of(p).Some? ==>
      var id := Of(p).value;
      && id in s.writers
      && (Private(p) ==> id !in s.sessions && !s.writers[id].done && s.writers[id].file.Some?)
      && (p.Finishing? ==> s.writers[id].file.None? && s.writers[id].dones == 0)
      && (p.Erasing? ==> s.writers[id].dones == 1)
      && (BeforeCallback(p) ==> s.writers[id].done && s.writers[id].commits == 0)
      && (p.Syncing? || p.Calling? || p.Storing? ==> s.writers[id].done && Sha256(s.writers[id].hashed) == p.d)
  }

  predicate ThreadOk(s: State, t: Tid)
    requires t in s.threads
  {
    PointOk(s, s.threads[t].at)
  }

  predicate Apart(p: Pc, q: Pc) {
    Of(p).Some? && Of(p) == Of(q) ==>
      && !Private(p) && !Private(q)
      && !(p.Finishing? && q.Finishing?)
      && !(BeforeCallback(p) && BeforeCallback(q))
  }

  predicate PairOk(s: State, t: Tid, u: Tid)
    requires t in s.threads && u in s.threads
  {
    t != u ==> Apart(s.threads[t].at, s.threads[u].at) && Holds(s.threads[t]) !! Holds(s.threads[u])
  }

  ghost predicate Inv(s: State) {
    && (forall id :: id in s.uploads || id in s.sessions ==> id in s.writers)
    && (forall id :: id in s.writers ==> WriterOk(s, id))
    && (forall t :: t in s.threads ==> ThreadOk(s, t))
    && (forall t, u :: t in s.threads && u in s.threads ==> PairOk(s, t, u))
    && (forall id :: id in s.erased ==> id in s.writers && s.writers[id].dones == 1 && id !in s.sessions)
    && (forall d :: d in s.blobs ==> Sha256(s.blobs[d]) == d)
  }

  // ---- every step keeps the invariant --------------------------------------

  /** What a step by t does to a writer, seen from outside. */
  lemma EffectKeepsWriter(s: State, p: Pc, c: Choice, id: Uid)
    requires PointOk(s, p) && id in Effect(s, p, c).writers
    requires id in s.writers ==> WriterOk(s, id)
    requires id in s.uploads ==> id in s.writers
    ensures WriterOk(Effect(s, p, c), id)
  {
  }

  /** The moving thread arrives at a point that fits the new state. */
  lemma MoverFits(s: State, p: Pc, c: Choice)
    requires PointOk(s, p)
    requires forall id :: id in s.sessions || id in s.uploads ==> id in s.writers
    requires Of(p).Some? ==> WriterOk(s, Of(p).value)
    ensures PointOk(Effect(s, p, c), Advance(s, p, c))
  {
  }

  lemma BystanderFits(s: State, p: Pc, c: Choice, q: Pc)
    requires PointOk(s, p) && PointOk(s, q) && Apart(p, q)
    requires Of(q).Some? ==> WriterOk(s, Of(q).value)
    ensures PointOk(Effect(s, p, c), q)
  {
  }

  lemma StaysApart(s: State, p: Pc, c: Choice, q: Pc)
    requires PointOk(s, p) && PointOk(s, q) && Apart(p, q)
    requires Of(q).Some? ==> WriterOk(s, Of(q).value)
    ensures Apart(Advance(s, p, c), q)
  {
  }

  lemma StepKeepsHolds(s: State, t: Tid, c: Choice, u: Tid)
    requires Enabled(s, t, c) && u in s.threads && t != u
    requires Holds(s.threads[t]) !! Holds(s.threads[u])
    ensures Holds(After(s, t, c).threads[t]) !! Holds(s.threads[u])
  {
    var th := s.threads[t];
    if th.inside.None? && Wants(th.at, c).Some? {
      assert Wants(th.at, c).value !in Holds(s.threads[u]);
    }
  }

  lemma SamePoint(s: State, s': State, p: Pc)
    requires s'.writers == s.writers && s'.sessions == s.sessions && PointOk(s, p)
    ensures PointOk(s', p)
  {
  }

  lemma StepKeepsThreads(s: State, t: Tid, c: Choice)
    requires Inv(s) && Enabled(s, t, c)
    ensures forall u :: u in s.threads ==> ThreadOk(After(s, t, c), u)
  {
    var p := s.threads[t].at;
    assert ThreadOk(s, t);
    if s.threads[t].inside.None? {
      MoverFits(s, p, c);
      forall u | u in s.threads && u != t ensures ThreadOk(After(s, t, c), u) {
        assert ThreadOk(s, u) && PairOk(s, t, u);
        BystanderFits(s, p, c, s.threads[u].at);
        SamePoint(Effect(s, p, c), After(s, t, c), s.threads[u].at);
      }
      SamePoint(Effect(s, p, c), After(s, t, c), Advance(s, p, c));
    } else {
      forall u | u in s.threads ensures ThreadOk(After(s, t, c), u) {
        assert ThreadOk(s, u);
        SamePoint(s, After(s, t, c), s.threads[u].at);
      }
    }
  }

  lemma StepKeepsPairs(s: State, t: Tid, c: Choice, u: Tid)
    requires Inv(s) && Enabled(s, t, c) && u in s.threads && u != t
    ensures PairOk(After(s, t, c), t, u) && PairOk(After(s, t, c), u, t)
  {
    assert PairOk(s, t, u) && ThreadOk(s, t) && ThreadOk(s, u);
    StepKeepsHolds(s, t, c, u);
    if s.threads[t].inside.None? {
      StaysApart(s, s.threads[t].at, c, s.threads[u].at);
    }
  }

  lemma StepKeepsWriters(s: State, t: Tid, c: Choice)
    requires Inv(s) && Enabled(s, t, c)
    ensures forall id :: id in After(s, t, c).writers ==> WriterOk(After(s, t, c), id)
  {
    assert ThreadOk(s, t);
    forall id | id in After(s, t, c).writers ensures WriterOk(After(s, t, c), id) {
      if s.threads[t].inside.None? {
        EffectKeepsWriter(s, s.threads[t].at, c, id);
      }
    }
  }

  /** The rest of the invariant: known ids, finished uploads, stored blobs. */
  lemma EffectKeepsRest(s: State, p: Pc, c: Choice)
    requires PointOk(s, p)
    requires Of(p).Some? ==> WriterOk(s, Of(p).value)
    requires forall id :: id in s.uploads || id in s.sessions ==> id in s.writers
    requires forall id :: id in s.erased ==> id in s.writers && s.writers[id].dones == 1 && id !in s.sessions
    requires forall d :: d in s.blobs ==> Sha256(s.blobs[d]) == d
    ensures forall id :: id in Effect(s, p, c).uploads || id in Effect(s, p, c).sessions ==> id in Effect(s, p, c).writers
    ensures forall id :: id in Effect(s, p, c).erased ==>
              id in Effect(s, p, c).writers && Effect(s, p, c).writers[id].dones == 1 && id !in Effect(s, p, c).sessions
    ensures forall d :: d in Effect(s, p, c).blobs ==> Sha256(Effect(s, p, c).blobs[d]) == d
  {
  }

  lemma StepKeepsInv(s: State, t: Tid, c: Choice)
    requires Inv(s) && Enabled(s, t, c)
    ensures Inv(After(s, t, c))
  {
    var s' := After(s, t, c);
    StepKeepsWriters(s, t, c);
    StepKeepsThreads(s, t, c);
    forall u, v | u in s'.threads && v in s'.threads ensures PairOk(s', u, v) {
      if u == t && v != t {
        StepKeepsPairs(s, t, c, v);
      } else if v == t && u != t {
        StepKeepsPairs(s, t, c, u);
      } else {
        assert PairOk(s, u, v);
      }
    }
    assert ThreadOk(s, t);
    if s.threads[t].inside.None? {
      EffectKeepsRest(s, s.threads[t].at, c);
    }
  }

  // ---- nothing is left behind ----------------------------------------------

  /** A point that leads to `cleanup` of the upload. */
  predicate WillClean(at: Pc, id: Uid) {
    (at.Syncing? || at.Calling? || at.Storing? || at.Cleaning?) && at.id == id
  }

  predicate WillFinish(at: Pc, id: Uid) {
    at.Finishing? && at.id == id
  }

  ghost predicate SomeoneCleans(s: State, id: Uid) {
    exists t :: t in s.threads && WillClean(s.threads[t].at, id)
  }

  ghost predicate SomeoneFinishes(s: State, id: Uid) {
    exists t :: t in s.threads && WillFinish(s.threads[t].at, id)
  }

  /** A finalized upload with a staging file has a thread that will clean it up. */
  ghost predicate CleanOwed(s: State, id: Uid)
    requires id in s.writers
  {
    s.writers[id].done && s.writers[id].file.Some? ==> SomeoneCleans(s, id)
  }

  /** A closed upload before onDone has a thread that will run it. */
  ghost predicate FinishOwed(s: State, id: Uid)
    requires id in s.writers
  {
    s.writers[id].file.None? && s.writers[id].dones == 0 ==> SomeoneFinishes(s, id)
  }

  /** A point from which the upload will be listed or its file closed. */
  predicate WillRelease(at: Pc, id: Uid) {
    (at.Registering? || at.Cancelling? || at.Storing? || at.Cleaning?) && at.id == id
  }

  ghost predicate SomeoneReleases(s: State, id: Uid) {
    exists t :: t in s.threads && WillRelease(s.threads[t].at, id)
  }

  /** An open staging file that is not in the map has a thread that sees to it. */
  ghost predicate ListOwed(s: State, id: Uid)
    requires id in s.writers
  {
    id !in s.uploads && s.writers[id].file.Some? ==> SomeoneReleases(s, id)
  }

  lemma CleanerStays(s: State, t: Tid, c: Choice, id: Uid)
    requires t in s.threads && SomeoneCleans(s, id) && id in s.writers
    ensures SomeoneCleans(After(s, t, c), id) || After(s, t, c).writers[id].file.None?
  {
    var u :| u in s.threads && WillClean(s.threads[u].at, id);
    assert u != t || s.threads[t].inside.Some? || !s.threads[t].at.Cleaning? ==> WillClean(After(s, t, c).threads[u].at, id);
  }

  /** Which steps finalize an upload, close it, and run its onDone. */
  lemma EffectOnFlags(s: State, p: Pc, c: Choice, id: Uid)
    requires id in s.writers
    ensures id in Effect(s, p, c).writers
    ensures var w, w' := s.writers[id], Effect(s, p, c).writers[id];
            && (w'.file.None? <==> w.file.None? || (p.Cleaning? && p.id == id))
            && (w'.done <==> w.done || ((p.Committing? || p.Cancelling?) && p.id == id))
            && w'.dones == w.dones + if WillFinish(p, id) then 1 else 0
  {
  }

  lemma StepKeepsCleanOwed(s: State, t: Tid, c: Choice, id: Uid)
    requires t in s.threads && id in s.writers && CleanOwed(s, id)
    ensures CleanOwed(After(s, t, c), id)
  {
    var s' := After(s, t, c);
    EffectOnFlags(s, s.threads[t].at, c, id);
    if s.writers[id].done && s.writers[id].file.Some? {
      CleanerStays(s, t, c, id);
    } else if s'.writers[id].done && s'.writers[id].file.Some? {
      assert WillClean(s'.threads[t].at, id);
    }
  }

  lemma StepKeepsFinishOwed(s: State, t: Tid, c: Choice, id: Uid)
    requires t in s.threads && id in s.writers && FinishOwed(s, id)
    ensures FinishOwed(After(s, t, c), id)
  {
    var s' := After(s, t, c);
    EffectOnFlags(s, s.threads[t].at, c, id);
    if s'.writers[id].file.None? && s'.writers[id].dones == 0 {
      if s.writers[id].file.None? {
        var u :| u in s.threads && WillFinish(s.threads[u].at, id);
        assert s'.threads[u].at == s.threads[u].at;
        assert WillFinish(s'.threads[u].at, id);
      } else {
        assert WillFinish(s'.threads[t].at, id);
      }
    }
  }

  /** Who takes an upload out of the map goes on to close it. */
  lemma UnlistingReleases(s: State, t: Tid, c: Choice, id: Uid)
    requires t in s.threads && PointOk(s, s.threads[t].at) && id in s.writers
    requires id in s.uploads && id !in After(s, t, c).uploads && After(s, t, c).writers[id].file.Some?
    ensures WillRelease(After(s, t, c).threads[t].at, id)
  {
  }

  lemma ReleaserStays(s: State, t: Tid, c: Choice, id: Uid, u: Tid)
    requires t in s.threads && id in s.writers && u in s.threads && WillRelease(s.threads[u].at, id)
    requires id !in After(s, t, c).uploads && After(s, t, c).writers[id].file.Some?
    ensures WillRelease(After(s, t, c).threads[u].at, id)
  {
  }

  lemma StepKeepsListOwed(s: State, t: Tid, c: Choice, id: Uid)
    requires t in s.threads && PointOk(s, s.threads[t].at) && id in After(s, t, c).writers
    requires id in s.writers ==> ListOwed(s, id)
    ensures ListOwed(After(s, t, c), id)
  {
    var s' := After(s, t, c);
    if id !in s'.uploads && s'.writers[id].file.Some? {
      if id !in s.writers {
        assert WillRelease(s'.threads[t].at, id);
      } else if id in s.uploads {
        UnlistingReleases(s, t, c, id);
      } else {
        EffectOnFlags(s, s.threads[t].at, c, id);
        var u :| u in s.threads && WillRelease(s.threads[u].at, id);
        ReleaserStays(s, t, c, id, u);
      }
    }
  }

  // ---- whole runs ----------------------------------------------------------

  ghost predicate Run(ss: seq<State>, ts: seq<Tid>, cs: seq<Choice>) {
    && |ss| == |ts| + 1 && |cs| == |ts|
    && ss[0].writers == map[] && ss[0].uploads == {} && ss[0].sessions == {} && ss[0].blobs == map[] && ss[0].erased == {}
    && (forall t :: t in ss[0].threads ==> Quiet(ss[0].threads[t]))
    && forall i :: 0 <= i < |ts| ==> Enabled(ss[i], ts[i], cs[i]) && ss[i + 1] == After(ss[i], ts[i], cs[i])
  }

  ghost predicate Sound(s: State) {
    Inv(s) && forall id :: id in s.writers ==> CleanOwed(s, id) && FinishOwed(s, id) && ListOwed(s, id)
  }

  lemma StepKeepsOwed(s: State, t: Tid, c: Choice, id: Uid)
    requires t in s.threads && id in After(s, t, c).writers
    requires PointOk(s, s.threads[t].at)
    requires id in s.writers ==> CleanOwed(s, id) && FinishOwed(s, id) && ListOwed(s, id)
    ensures CleanOwed(After(s, t, c), id) && FinishOwed(After(s, t, c), id) && ListOwed(After(s, t, c), id)
  {
    StepKeepsListOwed(s, t, c, id);
    if id in s.writers {
      StepKeepsCleanOwed(s, t, c, id);
      StepKeepsFinishOwed(s, t, c, id);
    }
  }

  lemma StepKeepsSound(s: State, t: Tid, c: Choice)
    requires Sound(s) && Enabled(s, t, c)
    ensures Sound(After(s, t, c))
  {
    StepKeepsInv(s, t, c);
    assert ThreadOk(s, t);
    forall id | id in After(s, t, c).writers
      ensures CleanOwed(After(s, t, c), id) && FinishOwed(After(s, t, c), id) && ListOwed(After(s, t, c), id)
    {
      StepKeepsOwed(s, t, c, id);
    }
  }

  lemma {:induction false} AlwaysSound(ss: seq<State>, ts: seq<Tid>, cs: seq<Choice>, n: nat)
    requires Run(ss, ts, cs) && n < |ss|
    ensures Sound(ss[n])
  {
    if n == 0 {
    } else {
      AlwaysSound(ss, ts, cs, n - 1);
      StepKeepsSound(ss[n - 1], ts[n - 1], cs[n - 1]);
    }
  }

  /**
   In every state of every run the staged bytes, the counted size and the running hash agree
   and stay within the limit; the commit callback and onDone were each started at most once;
   and every stored blob hashes to the digest it is stored under.
   */
  lemma WriterAlwaysAgrees(ss: seq<State>, ts: seq<Tid>, cs: seq<Choice>, n: nat, id: Uid)
    requires Run(ss, ts, cs) && n < |ss| && id in ss[n].writers
    ensures var w := ss[n].writers[id];
            && w.size == |w.hashed| <= w.max && (w.file.Some? ==> w.file.value == w.hashed)
            && w.commits <= 1 && w.dones <= 1
    ensures forall d :: d in ss[n].blobs ==> Sha256(ss[n].blobs[d]) == d
  {
    AlwaysSound(ss, ts, cs, n);
    assert WriterOk(ss[n], id);
  }

  /** No two threads ever hold the same lock. */
  lemma LocksExclude(ss: seq<State>, ts: seq<Tid>, cs: seq<Choice>, n: nat, t: Tid, u: Tid)
    requires Run(ss, ts, cs) && n < |ss| && t in ss[n].threads && u in ss[n].threads && t != u
    ensures Holds(ss[n].threads[t]) !! Holds(ss[n].threads[u])
  {
    AlwaysSound(ss, ts, cs, n);
    assert PairOk(ss[n], t, u);
  }

  /** The callback starts only as the first one of its upload, and only for the digest of the staged bytes. */
  lemma CallbackIsJustified(ss: seq<State>, ts: seq<Tid>, cs: seq<Choice>, n: nat)
    requires Run(ss, ts, cs) && n < |ts|
    requires ss[n].threads[ts[n]].at.Calling? && ss[n].threads[ts[n]].inside.None?
    ensures var at := ss[n].threads[ts[n]].at;
            && at.id in ss[n].writers && ss[n].writers[at.id].done && ss[n].writers[at.id].commits == 0
            && Sha256(ss[n].writers[at.id].hashed) == at.d
  {
    AlwaysSound(ss, ts, cs, n);
    assert ThreadOk(ss[n], ts[n]);
  }

  ghost predicate Started(s: State, id: Uid) {
    id in s.writers && s.writers[id].dones == 1
  }

  lemma StepKeepsStarted(s: State, t: Tid, c: Choice, id: Uid)
    requires Sound(s) && Enabled(s, t, c) && Started(s, id)
    ensures Started(After(s, t, c), id) && (id in s.erased ==> id in After(s, t, c).erased)
  {
    EffectOnFlags(s, s.threads[t].at, c, id);
    StepKeepsSound(s, t, c);
    assert id in After(s, t, c).writers && WriterOk(After(s, t, c), id);
  }

  ghost predicate Erased(s: State, id: Uid) {
    Started(s, id) && id in s.erased
  }

  lemma StartedIsGone(s: State, id: Uid)
    requires Sound(s)
    ensures Started(s, id) ==> id !in s.uploads
    ensures Erased(s, id) ==> id !in s.sessions
  {
    assert id in s.writers ==> WriterOk(s, id);
  }

  /**
   Once onDone has run, an upload's id never comes back into the map, and once its delete of the
   session row has succeeded, never into the sessions table.
   */
  lemma FinishedStaysGone(ss: seq<State>, ts: seq<Tid>, cs: seq<Choice>, m: nat, n: nat, id: Uid)
    requires Run(ss, ts, cs) && m <= n < |ss|
    ensures Started(ss[m], id) ==> id !in ss[n].uploads
    ensures Erased(ss[m], id) ==> id !in ss[n].sessions
  {
    var started := seq(|ss|, i requires 0 <= i < |ss| => Started(ss[i], id));
    var erased := seq(|ss|, i requires 0 <= i < |ss| => Erased(ss[i], id));
    forall i | 0 <= i < |ss| - 1 ensures (started[i] ==> started[i + 1]) && (erased[i] ==> erased[i + 1]) {
      AlwaysSound(ss, ts, cs, i);
      if Started(ss[i], id) {
        StepKeepsStarted(ss[i], ts[i], cs[i], id);
      }
    }
    StaysTrue(started, m, n);
    StaysTrue(erased, m, n);
    AlwaysSound(ss, ts, cs, n);
    StartedIsGone(ss[n], id);
  }

  ghost predicate Frozen(s: State, id: Uid, content: Bytes) {
    id in s.writers && s.writers[id].done && s.writers[id].hashed == content
  }

  lemma DoneRefuses(w: Writer, p: Bytes, n: nat)
    requires w.done
    ensures Written(w, p, n).hashed == w.hashed && Written(w, p, n).done
  {
    assert p[..0] == [];
    assert w.hashed + [] == w.hashed;
  }

  lemma StepKeepsFrozen(s: State, t: Tid, c: Choice, id: Uid, content: Bytes)
    requires t in s.threads && Frozen(s, id, content)
    ensures Frozen(After(s, t, c), id, content)
  {
    var at := s.threads[t].at;
    if at.Writing? {
      DoneRefuses(s.writers[id], at.p, c.n);
    }
  }

  /** Once an upload is finalized its content never changes. */
  lemma {:induction false} FinalizedIsFrozen(ss: seq<State>, ts: seq<Tid>, cs: seq<Choice>, m: nat, n: nat, id: Uid, content: Bytes)
    requires Run(ss, ts, cs) && m <= n < |ss| && Frozen(ss[m], id, content)
    ensures Frozen(ss[n], id, content)
  {
    if m < n {
      FinalizedIsFrozen(ss, ts, cs, m, n - 1, id, content);
      StepKeepsFrozen(ss[n - 1], ts[n - 1], cs[n - 1], id, content);
    }
  }

  /**
   When every call has returned, no finalized or closed upload still has a staging file or a map
   entry, and every open staging file is in the map, where it can be resumed or reaped.
   */
  lemma NothingLeaks(ss: seq<State>, ts: seq<Tid>, cs: seq<Choice>, n: nat, id: Uid)
    requires Run(ss, ts, cs) && n < |ss| && id in ss[n].writers
    requires forall t :: t in ss[n].threads ==> Quiet(ss[n].threads[t])
    ensures ss[n].writers[id].done || ss[n].writers[id].file.None? ==>
              ss[n].writers[id].file.None? && ss[n].writers[id].dones == 1 && id !in ss[n].uploads
    ensures ss[n].writers[id].file.Some? ==> id in ss[n].uploads && !ss[n].writers[id].done
  {
    AlwaysSound(ss, ts, cs, n);
    assert CleanOwed(ss[n], id) && FinishOwed(ss[n], id) && ListOwed(ss[n], id) && WriterOk(ss[n], id);
  }

  // ---- what a call achieves ------------------------------------------------

  /** A chunk that fits is appended whole to an open upload, unless the operating system gives up on it. */
  lemma WriteAppends(s: State, t: Tid, c: Choice)
    requires t in s.threads && s.threads[t].inside.None? && s.threads[t].at.Writing? && s.threads[t].at.id in s.writers
    ensures var id, p := s.threads[t].at.id, s.threads[t].at.p;
            var w, w' := s.writers[id], After(s, t, c).writers[id];
            if !w.done && w.size + |p| <= w.max && w.file.Some? && |p| <= c.n
            then w'.file == Some(w.file.value + p) && w'.hashed == w.hashed + p && w'.size == w.size + |p|
            else if w.done || w.size + |p| > w.max || w.file.None?
            then w'.file == w.file && w'.hashed == w.hashed && w'.size == w.size
            else w'.size == w.size + c.n
  {
    var w, p := s.writers[s.threads[t].at.id], s.threads[t].at.p;
    assert p[..0] == [] && p[..|p|] == p && w.hashed + [] == w.hashed;
    assert w.file.Some? ==> w.file.value + [] == w.file.value;
  }

  /**
   Registering lists the upload; a session row follows if the insert succeeds, and otherwise the upload
   is taken back. A request resumes exactly what is listed, and removes the row of what is not. The
   reaper takes the upload out of the map and closes it if it was there. Row deletes delete.
   */
  lemma RegistryStepsAreExact(s: State, t: Tid, c: Choice)
    requires t in s.threads && s.threads[t].inside.None?
    ensures var at, s' := s.threads[t].at, After(s, t, c);
            match at
            case Registering(id) => s'.uploads == s.uploads + {id} && s'.threads[t].at == Creating(id)
            case Creating(id) =>
              if c.ok then s'.sessions == s.sessions + {id} && s'.threads[t].at == Holding(id)
              else s'.sessions == s.sessions && s'.threads[t].at == Discarding(id)
            case Discarding(id) => s'.uploads == s.uploads - {id} && s'.threads[t].at == Cancelling(id)
            case Looking(id) =>
              s'.uploads == s.uploads && s'.threads[t].at == if id in s.uploads then Holding(id) else DeletingRow(id)
            case Reaping(id) =>
              && s'.uploads == s.uploads - {id}
              && s'.threads[t].at == if id in s.uploads then Cleaning(id, DropRow) else DeletingRow(id)
            case DeletingRow(id) => c.ok ==> s'.sessions == s.sessions - {id}
            case Erasing(id, _) => c.ok ==> s'.sessions == s.sessions - {id}
            case Finishing(id, _) => id in s.writers ==> s'.uploads == s.uploads - {id}
            case _ => true
  {
  }

  lemma StepKeepsBlob(s: State, t: Tid, c: Choice, d: Digest)
    requires t in s.threads && d in s.blobs
    ensures d in After(s, t, c).blobs
  {
  }

  /** A commit whose store succeeds puts the staged bytes under their digest, and there they stay. */
  lemma CommitStores(ss: seq<State>, ts: seq<Tid>, cs: seq<Choice>, m: nat, n: nat)
    requires Run(ss, ts, cs) && m < n < |ss|
    requires var th := ss[m].threads[ts[m]];
             th.at.Storing? && th.inside.None? && cs[m].ok && th.at.id in ss[m].writers && ss[m].writers[th.at.id].file.Some?
    ensures var at := ss[m].threads[ts[m]].at;
            && at.d == Sha256(ss[m].writers[at.id].hashed) && at.d in ss[n].blobs
            && ss[n].blobs[at.d] == ss[m].writers[at.id].hashed
  {
    var at := ss[m].threads[ts[m]].at;
    AlwaysSound(ss, ts, cs, m);
    assert ThreadOk(ss[m], ts[m]);
    var p := seq(|ss|, i requires 0 <= i < |ss| => at.d in ss[i].blobs);
    forall i | 0 <= i < |p| - 1 && p[i] ensures p[i + 1] {
      StepKeepsBlob(ss[i], ts[i], cs[i], at.d);
    }
    assert ss[m + 1] == After(ss[m], ts[m], cs[m]);
    StaysTrue(p, m + 1, n);
    AlwaysSound(ss, ts, cs, n);
  }
}

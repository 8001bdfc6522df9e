# A verified model of apoci's stateful protocols

apoci is a federated registry for OCI images and packages. This project models the parts of
it that keep state under concurrency, failure and time, and proves what they promise:

- the package store and its garbage collector (`Tables`, `Statements`, `Prune`, `Retention`, `Sweep`,
  `Collector`, `Grace`),
- pushes against repository deletes and pruning (`RepoDelete`, `Purging`, `Pushes`),
- the follow relationship and the mutual handshake (`Actors`, `Handshake`,
  `Consent`, `Settling`),
- outbound delivery, fan-out and the upstream circuit breaker (`Delivery`, `FanOut`, `Breaker`),
- inbox intake, its queue, the ownership rule and the rows left without a parent (`Intake`, `Queue`,
  `Ownership`, `Strays`),
- replication to another registry and the chunked-upload writer (`Replication`, `Upload`).

`Base` and `Keyset` hold what they share: optional values, facts about finite sets, and the
keyset page query. `dafny verify dfyconfig.toml` checks everything.

How the source is read:

- A SQL statement or transaction is one atomic step; SQLite takes the write lock when a
  transaction begins. `LIMIT n` without a usable order is any selection of the right size.
- A database or storage call may fail without effect. In the collector the failures are
  counted, and what holds only without failures is stated under `errors == 0`; on a store where no
  call fails (`reliable`) there are none, and a replication of what the source holds succeeds.
- There is one integer clock that never goes back. SHA-256 is injective.
- Code that runs step by step against other code is a state machine whose runs are sequences
  of states; theorems quantify over every run. Code that updates its own state in place is a
  class or a method on the database handle, tied to functions on snapshots.
- Digests, names and URLs are positive integers: the source only compares and orders them.
  Zero stands for the empty text, where keyset scans start.

What the proofs brought to light about the code, each with a lemma that exhibits it and the exact
condition:

- Pruning untagged manifests never frees a reference cycle that no tag reaches, and such a
  cycle can be received, because the inbox takes a manifest's subject from the activity
  (`Strays.MutualSubjectsAreNeverPruned`). Repeated pruning equals tracing if and only if there
  is no such cycle (`Prune.PruneRefinesTracing`).
- What the collector has listed as an old orphan, or condemned on disk, it deletes without
  looking again: a push or a manifest in between does not save it, and pushing an old orphan again
  does not renew its age. A row or a file can be lost under a manifest that lists it if and only if
  it was listed or condemned (`Grace.OldOrphanCanBeLostIff`, `Grace.CondemnedFileCanBeLostIff`), and
  a digest new to the node is in danger if and only if the collector still holds an earlier copy of
  it so (`Grace.EndangeredIff`). `Grace.ThreatIsReachable` and `Grace.CondemnedIsReachable` are runs to
  such states, `Grace.OnDeleteListCanLose` and `Grace.CondemnedCanLose` the runs that lose from there.
- Pushing again an old untagged manifest does not renew its age, so a prune between the manifest and
  the tag transaction leaves a tag without its manifest although the push reports success
  (`Pushes.PushCanBeLost`). A successful push is without its manifest if and only if that was pruned
  or deleted in between and not stored again (`Pushes.NoSilentlyLostPush`).
- Deleting a repository unlinks the files of the purged blobs after its transaction, without another
  look: a push in between keeps its row and loses its bytes (`Purging.PurgeIsReachable`,
  `Purging.DueCanLose`), exactly as long as the unlink is due (`Purging.PurgedBytesCanBeLostIff`).
- The answer "busy, retry later" of a full inbox queue is final: the retry finds the dedup row
  and is dropped (`Intake.FullQueueSpends`, `Intake.BusyIsFinal`). A recorded activity can still take
  effect if and only if the POST that recorded it was not dropped (`Intake.SpentIff`).
- A cancelled consumer can swallow a wake-up and leave an item beside a parked consumer
  (`Queue.WakeUpCanBeSwallowed`), exactly when it was woken for the last item that had nobody else
  coming (`Queue.StepAttends`, `Queue.UnattendedIff`). Nothing is lost: the broadcast of its watcher
  can still wake the others, and the queue is drained at the end.
- The inbox writes without a second look and there are no foreign keys, so a version row can
  outlive its package and layer rows their version (`Strays.VersionCanStray`, `Strays.FileCanStray`),
  exactly when the parent went between the check and the write (`Strays.HomelessIff`,
  `Strays.DanglingIff`). The ownership results and the exactness of a repository delete hold regardless.

## Model

| member | source | states |
|---|---|---|
| `Keyset.PageIsSound` | internal/database/blobs.go:74-84 | a page holds keys above the cursor, strictly ascending |
| `Keyset.PageIsComplete` | internal/database/blobs.go:74-84 | no key up to the page's end is left out, and a short page holds every key above the cursor |
| `Tables.PutFiles` | internal/database/packages.go:364-381 | references are only added: exactly one file row for each, none removed |
| `Statements.PutBlobMerges` | internal/database/blobs.go:23-36 | a blob is created once, flagged local for good and resized only by a local store; no other row or table changes |
| `Statements.PutBlobIsIdempotent` | internal/database/blobs.go:23-36 | the same upsert again, at any time, changes nothing more |
| `Statements.DeleteBlobTakesOne` | internal/database/blobs.go:120-126 | exactly that row goes |
| `Statements.SetLocalFlags` | internal/database/blobs.go:111-118 | only the flag of that row changes |
| `Statements.PutTagWritesOne` | internal/database/packages.go:438-461 | written exactly when the package exists; the tag points at the version from now on, and no other tag moves |
| `Statements.DeleteUndoesPutTag` | internal/database/packages.go:463-471 | deleting a new tag restores what was there |
| `Statements.DeleteTagTakesOne` | internal/database/packages.go:463-471 | exactly that tag goes |
| `Statements.EntombWritesOnce` | internal/database/packages.go:519-530 | the first tombstone stays, with its source and its time |
| `Statements.DropVersionsTakesThose` | internal/database/packages.go:1083-1156 | the versions go with exactly their file rows |
| `Statements.DeleteVersionTakesItsOwn` | internal/database/packages.go:294-331 | the version goes with its file rows and exactly the tags of its package that point at it; a missing one changes nothing |
| `Statements.PutVersionMerges` | internal/database/packages.go:231-266 | a version stored again keeps its id and its age; its subject and its source are the latest |
| `Statements.PutManifestIsAtomic` | internal/database/packages.go:614-636 | the manifest and exactly its references are stored together, if and only if the package exists |
| `Statements.GetOrCreateIsExact` | internal/database/packages.go:74-118 | the owner gets the package of that name, anybody else is refused, and only a new name makes a row |
| `Prune.PrunableIff` | internal/database/packages.go:1083-1156 | what the query selects, column by column: an OCI manifest older than the cutoff that no tag of its package points at and no version of its package lists in a file row or names as subject |
| `Prune.BatchKeeps` | internal/database/packages.go:1083-1156 | any batch keeps every manifest reachable from a tagged or young one with its file rows, changes no manifest's reachability, and leaves no survivor's reference dangling |
| `Prune.CycleSurvives` | internal/database/packages.go:1083-1156 | a reference cycle keeps itself alive through every batch |
| `Prune.DeadHasStrandedCycle` | internal/database/packages.go:1083-1156 | at a fixpoint, anything left that tracing would collect hides a cycle that tracing would collect |
| `Prune.RunKeeps` | internal/peering/gc.go:381-427 | over any sequence of batches of any sizes at one cutoff: reachability and cycles are unchanged, everything reachable stays, every survivor keeps its row and its file rows, and no survivor's reference dangles |
| `Prune.PruneRefinesTracing` | internal/database/packages.go:1083-1156 | repeating batches of any sizes until nothing is prunable leaves exactly the manifests a tracing collector keeps, if and only if the store has no unreachable cycle |
| `Prune.AcyclicPruneIsTracing` | internal/database/packages.go:1083-1156 | for acyclic references the fixpoint is the tracing answer |
| `Prune.BusyRunsAreShort` | internal/database/packages.go:1083-1156 | batches that each delete something come to an end: there are at most as many as there are versions |
| `Prune.StoppingIsSettled` | internal/database/packages.go:1083-1156 | no such batch is possible if and only if nothing is prunable, so the fixpoint is always reached |
| `Strays.MutualSubjectsAreNeverPruned` | internal/activitypub/inbox_content.go:182-301 | a run of two Create activities of one actor that name each other as subject: the cycle they store is not pruned at any cutoff although no tag reaches it |
| `Retention.DoomedIff` | internal/peering/gc.go:332-379 | the rule in full: a tag of an OCI package goes if and only if no glob pins it and it is older than MaxAge or has KeepLastN unpinned tags before it, each limit counting only if set |
| `Retention.EnoughAhead` | internal/peering/gc.go:332-379 | ahead of a tag that is beyond KeepLastN there are at least KeepLastN tags that are not |
| `Retention.CounterAgrees` | internal/peering/gc.go:332-379 | the loop's running counter decides as the rank among unpinned tags does |
| `Retention.DeletingDoomedIsConfluent` | internal/peering/gc.go:287-379 | deleting any of the tags a policy drops dooms no other tag and spares no other tag |
| `Retention.SweepsProgress` | internal/peering/gc.go:287-328 | after n capped sweeps exactly min(n * cap, all) dropped tags are gone, and nothing else |
| `Retention.CappedSweepsConverge` | internal/peering/gc.go:287-328 | enough capped sweeps leave the same state as one uncapped sweep |
| `Sweep.TagsNewestFirst` | internal/database/packages.go:1058-1078 | all tags of the package, newest first |
| `Sweep.Candidates` | internal/peering/gc.go:332-379 | the counting loop collects exactly the dropped tags, each once: all but the pinned ones and the newest KeepLastN within MaxAge |
| `Sweep.DeleteCandidates` | internal/peering/gc.go:362-378 | deletes candidates in order, at most the budget, and without failures all of them or exactly the budget |
| `Sweep.ApplyRetention` | internal/peering/gc.go:332-379 | deletes only dropped tags, at most the budget, and without failures all of them or exactly the budget |
| `Sweep.SweepPage` | internal/peering/gc.go:287-328 | one page of packages, within what is left of the cap |
| `Sweep.RetentionSweep` | internal/peering/gc.go:287-328 | deletes only dropped tags, at most the cap over the whole sweep; without failures exactly min(cap, all), or all when there is no cap |
| `Collector.Select` | internal/database/blobs.go:131-148 | LIMIT without a usable order: any selection of the right size |
| `Collector.PrunableStays` | internal/database/packages.go:1083-1156 | a prunable manifest stays prunable through other deletions and later cutoffs |
| `Collector.BatchKeepsTagLive` | internal/database/packages.go:1083-1156 | a batch takes nothing a tag reaches, and cuts none of its paths |
| `Collector.RoundsKeepPruning` | internal/peering/gc.go:381-427 | over the rounds of a phase: what tags reach stays with its rows, and what was prunable at the start is deleted or still prunable |
| `Collector.RoundsAreSafe` | internal/peering/gc.go:381-427 | a phase touches only versions, their file rows and tombstones, and nothing a tag reaches |
| `Collector.RoundsBury` | internal/peering/gc.go:402-416 | without failures every pruned manifest of an owned repository has its tombstone, old ones kept and new ones dated within the phase |
| `Collector.RoundsKeepListed` | internal/database/packages.go:1113-1125 | over a whole phase, what a surviving version of the package lists or names as subject survives |
| `Collector.ShortRoundEnds` | internal/peering/gc.go:418-420 | when the last batch is short, nothing that was prunable when the phase began is left |
| `Collector.GarbageCollector.PruneBatch` | internal/database/packages.go:1083-1156 | one transaction: only old OCI manifests that no tag, file row or subject of their package names, at most the limit, and all of those when it is short |
| `Collector.GarbageCollector.EntombOwned` | internal/peering/gc.go:403-416 | tombstones for exactly the pruned manifests of repositories this node owns, existing ones kept |
| `Collector.GarbageCollector.PruneRound` | internal/peering/gc.go:390-420 | one batch with its tombstones |
| `Collector.GarbageCollector.PruneUntagged` | internal/peering/gc.go:381-427 | the phase is a chain of rounds with cutoffs that never go back, ending with a short one when nothing fails |
| `Collector.GarbageCollector.StalePeers` | internal/peering/gc.go:441-452 | peer rows older than the limit go, the others stay |
| `Collector.GarbageCollector.OrphanBatch` | internal/peering/gc.go:465-495 | one batch: only orphan rows go, and when the phase does not go on and nothing failed none is left |
| `Collector.GarbageCollector.OrphanRows` | internal/peering/gc.go:456-499 | no row goes that is inside the grace period, listed by a file row, or not local and held by a peer; without failures every other row is gone |
| `Collector.GarbageCollector.DeleteBlobs` | internal/peering/gc.go:478-491 | the deletes of one batch |
| `Collector.GarbageCollector.AllBlobDigests` | internal/database/blobs.go:151-171 | the paging loop returns exactly the digests with a row |
| `Collector.GarbageCollector.JudgeFile` | internal/peering/gc.go:525-566 | a file without a row is repaired when a manifest lists it, kept inside the grace period, and otherwise deleted |
| `Collector.GarbageCollector.OrphanFiles` | internal/peering/gc.go:503-572 | only files without row and reference outside the grace period are deleted, no row changes, and without failures every file has a row or is young and unreferenced |
| `Collector.GarbageCollector.ReconcileRow` | internal/peering/gc.go:595-640 | one row is set to what the disk says, or reported as lost |
| `Collector.GarbageCollector.ReconcilePage` | internal/peering/gc.go:581-659 | the rows of one page, the failures of some not touching the others |
| `Collector.GarbageCollector.Reconcile` | internal/peering/gc.go:581-659 | every row is fixed or as it was, only lost rows are reported, and without failures all rows are fixed and all lost ones reported |
| `Collector.FixedIsStraight` | internal/peering/gc.go:581-659 | afterwards stored_locally equals file presence except on exactly the reported digests |
| `Collector.ReconcileIsIdempotent` | internal/peering/gc.go:581-659 | running the reconcile again changes nothing and reports the same digests |
| `Collector.GarbageCollector.OldTombs` | internal/peering/gc.go:429-438 | tombstones older than the limit go, the others stay |
| `Collector.GarbageCollector.SweepTables` | internal/peering/gc.go:217-242 | the phases over tags, manifests and peers |
| `Collector.GarbageCollector.SweepBlobs` | internal/peering/gc.go:217-242 | the phases over blob rows, files, drift and tombstones |
| `Collector.BlobsSurvive` | internal/peering/gc.go:456-659 | a blob that a file row lists and that had its row and its bytes keeps both |
| `Collector.CycleIsSafe` | internal/peering/gc.go:217-242 | the phases compose to the safety of the cycle |
| `Collector.GarbageCollector.Collect` | internal/peering/gc.go:217-242 | whatever fails: every manifest that a surviving tag points at or reaches, or that a surviving version lists or names, keeps its row and file rows; no blob row goes that is young, listed, or remote with a peer, and no file that is young, listed or has its row; only tags that retention drops go, within the cap. Without failures: the tags gone are all of them or exactly the cap, all that was prunable is gone and entombed where owned, stale peers and old tombstones are gone, every file has a row or is in grace, every old unlisted row has a peer, and the drift flags are right except on the reported digests |
| `Grace.StepKeepsTimely` | internal/peering/gc.go:456-572 | the collector's cutoffs always lie at least a grace period back |
| `Grace.StepKeepsInv` | internal/peering/gc.go:456-572 | no step of any writer or of the collector takes a digest that is new to the node and listed in time |
| `Grace.GraceProtects` | internal/peering/gc.go:456-572 | in every interleaving of pushes with collector steps, whatever the collector was doing when it began, a new digest that some manifest lists before its grace period ends never loses its row or its bytes |
| `Grace.EndangeredIff` | internal/peering/gc.go:456-572 | a digest that is absent now can be lost in such a run if and only if the collector still has it on its delete list or condemned or, without a grace period, among the files it has listed |
| `Grace.ThreatIsReachable` | internal/peering/gc.go:456-499 | a run to such a state: an old orphan is listed and someone else deletes its row first |
| `Grace.CondemnedIsReachable` | internal/peering/gc.go:503-572 | a run, for any grace period, from an idle collector to a condemned file |
| `Grace.PushingAgainStaysOrphan` | internal/database/blobs.go:23-36 | pushing an orphan again renews neither its creation time nor its standing |
| `Grace.OnDeleteListCanLose` | internal/peering/gc.go:456-499 | from any state with the digest on the delete list, a run that pushes it with a manifest and then loses its row |
| `Grace.CondemnedCanLose` | internal/peering/gc.go:503-572 | from any state with the file condemned, a run that writes it with a manifest and then loses its bytes |
| `Grace.OldOrphanCanBeLostIff` | internal/peering/gc.go:456-499 | after any run, the collector may still delete the row of a blob under a manifest that lists it if and only if its last listing found the blob unreferenced and older than its cutoff and has not dealt with it since |
| `Grace.CondemnedFileCanBeLostIff` | internal/peering/gc.go:503-572 | after any run, it may still delete the bytes under a manifest that lists them if and only if it judged the digest unreferenced and then, with a grace period, found the file older than its cutoff |
| `RepoDelete.DeleteOwnedRepositoryWithBlobs` | internal/database/packages.go:816-898 | refuses, changing nothing, exactly when there is no such repository, the owner differs or an unexpired upload session is open, in that order; otherwise one transaction removes the repository's rows and reports exactly the digests, tags and blob rows that went |
| `RepoDelete.PurgeIsExact` | internal/database/packages.go:956-979 | the purged blobs are those the repository listed and no remaining file row lists |
| `RepoDelete.TransactionIsExact` | internal/database/packages.go:745-786 | the sequence of statements has exactly the described effect |
| `RepoDelete.DeleteIsExact` | internal/database/packages.go:816-898 | on any database: all of and only that repository's rows go, every removed digest has a tombstone and old ones stay, a blob row goes if and only if the repository listed it and no remaining file row does, and every other row of every table is as it was |
| `Purging.RepoDeletePurges` | internal/database/packages.go:956-979 | the purged rows are gone and no file row lists them any more |
| `Purging.DueCanLose` | internal/server/admin.go:440-449 | from any state with such an unlink due, a run that pushes the blob with a manifest and then loses its bytes |
| `Purging.PurgedBytesCanBeLostIff` | internal/server/admin.go:440-449 | after any run, the bytes of a blob may still be unlinked under its row and a manifest that lists it if and only if some delete purged it and has not come to its file yet |
| `Purging.PurgeIsReachable` | internal/server/admin.go:494-516 | a repository delete that leaves such an unlink due |
| `Pushes.StepKeepsSound` | internal/database/packages.go:438-461 | pushes, deletes, pruning, inbox ingest and caches keep names unique, ids unreused and every tag with its package |
| `Pushes.StepMisses` | internal/database/packages.go:614-636 | a push past its second transaction comes to miss its version or file rows exactly by a delete or a prune of that manifest, as long as its package id exists |
| `Pushes.NoSilentlyLostPush` | internal/oci/handler.go:1252-1314 | in every interleaving with repository and manifest deletes, pruning, other pushes and other writers, the last transaction of a tagged push fails and changes nothing when its repository is gone, and otherwise reports success; then package, version, files and tag are all there under one id, unless, and exactly if, its manifest was deleted or pruned after it was stored and nobody stored it again |
| `Pushes.TagsAlwaysHavePackages` | internal/database/packages.go:438-461 | no tag row ever belongs to a missing package, with the inbox and the caches writing too |
| `Pushes.StepOnTag` | internal/database/packages.go:438-461 | a tag appears or changes only by the last transaction of a push or another writer's, with that digest and that time, and goes only when retired or with its manifest or its repository |
| `Pushes.TaggedIff` | internal/database/packages.go:438-461 | in every run a tag has a value if and only if a write gave it that value and it has since been neither written differently nor deleted |
| `Pushes.PushCanBeLost` | internal/database/packages.go:231-266 | a run from an empty node: a push repeated after a failed one has its manifest pruned before the tag, and reports success |
| `Pushes.FreshPushIsNotPrunable` | internal/database/packages.go:1083-1156 | a manifest stored for the first time is not prunable until it has aged |
| `Actors.OpKeepsConsistent` | internal/database/actors.go:490-565 | following if and only if a status is set, an acceptance time if and only if accepted |
| `Actors.AddOutgoingAsks` | internal/database/actors.go:490-513 | pending from now on unless accepted before; nothing else changes |
| `Actors.AcceptAccepts` | internal/database/actors.go:516-530 | a pending follow becomes accepted, dated now, and nothing else changes; anything else is left alone |
| `Actors.RejectRejects` | internal/database/actors.go:533-545 | a pending follow becomes rejected, dated now, and nothing else changes |
| `Actors.RemoveRemoves` | internal/database/actors.go:548-565 | no status and no acceptance time is left, the incoming half and other rows stay |
| `Actors.StaleAreCleared` | internal/database/actors.go:636-653 | exactly the pending and rejected follows older than their limits are cleared |
| `Actors.FollowerComesAndGoes` | internal/database/actors.go:333-372 | recording and removing a follower leaves the outgoing follow alone |
| `Actors.AcceptedChanges` | internal/database/actors.go:516-530 | accepted is entered only from pending by that actor's Accept and left only by removal |
| `Actors.RunIsConsistent` | internal/database/actors.go:490-653 | the consistency holds over every run of operations |
| `Actors.AcceptedHasCause` | internal/activitypub/inbox_follow.go:62-98 | in every run an accepted follow goes back to one Accept of that actor for a pending follow, with no removal since |
| `Actors.AcceptedIff` | internal/activitypub/inbox_follow.go:62-98 | in every run a follow is accepted if and only if an Accept met it pending and it was not removed since |
| `Actors.RejectedIff` | internal/activitypub/inbox_follow.go:101-117 | in every run a follow is rejected if and only if a Reject met it pending and it was not asked again, removed or swept since |
| `Actors.UpsertKeepsFollow` | internal/database/actors.go:17-43 | the trailing upsert of AddFollow never undoes an Accept that overtook it |
| `Actors.ActorTable.AddOutgoingFollow` | internal/database/actors.go:490-513 | asks again unless already accepted |
| `Actors.ActorTable.AcceptOutgoingFollow` | internal/database/actors.go:516-530 | tells whether there was a pending follow; if so it is accepted with the time, and no other row changes |
| `Actors.ActorTable.RejectOutgoingFollow` | internal/database/actors.go:533-545 | a pending follow is rejected with the time, anything else is left as it was |
| `Actors.ActorTable.RemoveOutgoingFollow` | internal/database/actors.go:548-565 | clears the outgoing half and tells whether there was one |
| `Actors.ActorTable.DeleteStaleOutgoingFollows` | internal/database/actors.go:636-653 | clears exactly the stale pending and rejected follows |
| `Actors.ActorTable.GetFollowRequest` | internal/database/actors.go:174-184 | tells whether there is a request |
| `Actors.ActorTable.PromoteFollower` | internal/database/actors.go:333-353 | promotes the follower and deletes the request together, also when the request was withdrawn since it was read |
| `Handshake.ServeKeepsInv` | internal/federation/federation.go:86-131 | no statement of AddFollow loses a follow, an accept or a request |
| `Handshake.HandlerKeepsInv` | internal/activitypub/inbox_follow.go:12-98 | no statement of processFollow or processAccept does: each stores first and checks afterwards, so both sides cannot be left waiting |
| `Handshake.StepKeepsInv` | internal/activitypub/inbox_follow.go:12-98 | the invariant is kept by every step, deliveries in any order and repeated ones included |
| `Handshake.HandshakeCompletes` | internal/activitypub/inbox_follow.go:12-98 | every quiescent state of every run has both follows accepted and both nodes recorded as followers, with no request left |
| `Handshake.OnlyQuiescentStatesRest` | internal/activitypub/inbox_follow.go:12-98 | in a state that is not quiescent some step is possible |
| `Consent.NoFollowWithoutConsent` | internal/activitypub/inbox_follow.go:12-193 | in every state of every run a node that has not asked to follow records no follower, and an accepted follow is recorded by the other side |
| `Settling.StepPays` | internal/activitypub/inbox_follow.go:12-98 | every step but a delivery that will be repeated lowers the price of what can still happen |
| `Settling.HandshakeEnds` | internal/activitypub/inbox_follow.go:12-98 | every run has at most 50 steps and 22 more for each repeated delivery, and when nothing more can happen both follows are accepted and both nodes followers |
| `Delivery.DeliveryTable.Enqueue` | internal/database/delivery.go:18-32 | inserts unless the pair of activity and inbox is queued, and tells which |
| `Delivery.DeliveryTable.MarkDeliveryFailed` | internal/database/delivery.go:61-79 | one more attempt, due 2^min(attempts, 12) seconds from now; pending below the maximum and failed at it; no other row or column changes |
| `Delivery.DeliveryTable.MarkDelivered` | internal/database/delivery.go:50-58 | delivered, with one more attempt; no other row or column changes |
| `Delivery.BackoffClosedForm` | internal/database/delivery.go:61-79 | the sum of the first k delays is 2^k - 1 up to 13 and grows by 4096 after that |
| `Delivery.StepKeepsInv` | internal/activitypub/delivery_queue.go:210-300 | pending implies attempts below the maximum, what a worker holds agrees with the row, and posts never exceed attempts |
| `Delivery.RetryBounds` | internal/activitypub/delivery_queue.go:232-300 | in every run an attempt is made only on a pending row with attempts to spare, the k-th retry at least Backoff(k) after the first attempt, and no row is posted more often than its maximum |
| `Delivery.TerminalIsFinal` | internal/activitypub/delivery_queue.go:232-300 | a delivered, failed or cleaned-up row is never attempted again |
| `Delivery.StepOnRow` | internal/activitypub/delivery_queue.go:232-300 | a success delivers the row, a failure or a skip puts it off by a power of two or fails it at its last attempt, and only cleanup of a finished row removes one |
| `Delivery.EndedIff` | internal/activitypub/delivery_queue.go:232-300 | in every run a row is delivered if and only if the mark of a successful POST ended it, and failed if and only if its last attempt failed or was skipped, with no cleanup since |
| `Delivery.EnqueueQueues` | internal/database/delivery.go:18-32 | an enqueue leaves the pair queued, with a new pending row due at once if it was not, and touches no other row |
| `Delivery.AbsentIff` | internal/database/delivery.go:82-92 | in every run an enqueued row is missing if and only if cleanup took it after it had ended |
| `Delivery.AttemptsAreBounded` | internal/database/delivery.go:35-79 | once nothing is enqueued, the attempts still to come are bounded by the sum of what the rows have left |
| `FanOut.CollectInboxes` | internal/activitypub/publisher.go:272-314 | despite concurrent follows and unfollows no follower is read twice, every follower present throughout is read, and the inboxes are exactly those of the followers read that accept and resolve |
| `FanOut.AddPage` | internal/activitypub/publisher.go:288-308 | one page adds exactly the inboxes of its accepting and resolving followers |
| `FanOut.PageCovers` | internal/database/actors.go:401-412 | a page leaves out no follower up to its end, a short page none at all |
| `FanOut.EnqueueAll` | internal/activitypub/publisher.go:316-329 | one row for each inbox whose enqueue succeeds, old rows untouched, and the wake-up flag is set exactly when a row is new |
| `FanOut.EnqueueToFollowers` | internal/activitypub/publisher.go:272-337 | a failed listing queues nothing; otherwise the activity is queued for exactly the inboxes it was queued for before and the wanted ones whose enqueue succeeded, once each |
| `Breaker.CircuitBreaker.IsOpen` | internal/upstream/circuit.go:30-43 | clears an expired entry, touches no other registry, and answers whether the entry is open |
| `Breaker.CircuitBreaker.RecordSuccess` | internal/upstream/circuit.go:47-54 | clears the entry and tells whether it was open |
| `Breaker.CircuitBreaker.RecordFailure` | internal/upstream/circuit.go:58-69 | counts, opens at the threshold, and tells only the first opening |
| `Breaker.ReplayIsExpected` | internal/upstream/circuit.go:30-69 | after any events the count is the number of failures since the last success or expiry clearing, the circuit is marked open if and only if that is at least five, and the window's end is fixed by the fifth |
| `Breaker.OpeningsAreSeparated` | internal/upstream/circuit.go:30-69 | between two openings lie a clearing and five failures after it |
| `Queue.SimpleQueue.Push` | internal/queue/simple.go:25-30 | appends |
| `Queue.SimpleQueue.TryPush` | internal/queue/simple.go:34-43 | appends if and only if there is room, so the bound is kept |
| `Queue.SimpleQueue.Pop` | internal/queue/simple.go:46-56 | takes the front item if there is one |
| `Queue.SimpleQueue.Drain` | internal/queue/simple.go:112-118 | takes everything, in order |
| `Queue.StepKeepsInv` | internal/queue/simple.go:59-102 | every step conserves the items, and every parked consumer has a watcher |
| `Queue.ConsumersAreExact` | internal/queue/simple.go:59-102 | a consumer that finds an item takes the front one, cancelled or not; a woken one takes it unless cancelled; one that finds nothing waits unless cancelled |
| `Queue.StepAttends` | internal/queue/simple.go:59-102 | while every item beside parked consumers has a woken consumer on its way, a step ends that if and only if a cancelled consumer, woken for the last unattended item, returns without it |
| `Queue.QueueConserves` | internal/queue/simple.go:25-118 | in every run accepted equals popped followed by remaining, cancelled pops included, and a parked consumer that is cancelled has a watcher to wake it |
| `Queue.UnattendedIff` | internal/queue/simple.go:59-102 | in every run items wait unattended if and only if a cancelled consumer swallowed a wake-up and nobody has come since |
| `Queue.WithoutCancelAttended` | internal/queue/simple.go:59-102 | as long as no consumer is cancelled, no item waits beside parked consumers with nobody woken |
| `Queue.BroadcastRescues` | internal/queue/simple.go:72-84 | the broadcast of a watcher, also after its consumer has returned, wakes everybody |
| `Queue.QueueIsBounded` | internal/queue/simple.go:34-43 | a queue filled only by TryPush with one bound never exceeds it |
| `Queue.WakeUpCanBeSwallowed` | internal/queue/simple.go:59-102 | a run in which a cancelled consumer leaves an item beside a parked one for good, its watcher having seen it leave first |
| `Intake.StepKeepsInv` | internal/activitypub/inbox.go:335-379 | an activity that may take effect, or has, belongs to the POST that recorded it |
| `Intake.DedupIsExact` | internal/activitypub/inbox.go:335-353 | an activity goes on exactly when its id was not recorded, and is recorded then; a Follow whose relationship is gone goes on in any case |
| `Intake.QueueIsFifo` | internal/activitypub/inbox_worker.go:18-56 | activities are queued and taken in order, and a full queue turns the next one away |
| `Intake.DispatchedAtMostOnce` | internal/activitypub/inbox.go:335-379 | across concurrent POSTs and restarts no non-Follow activity id is dispatched twice, and the queue stays within 256 |
| `Intake.BusyIsFinal` | internal/activitypub/inbox.go:338-369 | once the POST that recorded an activity was dropped, no retry of it is ever dispatched |
| `Intake.SpentIff` | internal/activitypub/inbox.go:335-379 | after any run a recorded activity has been or can still be dispatched if and only if the POST that recorded it was not dropped |
| `Intake.FullQueueSpends` | internal/activitypub/inbox.go:363-369 | a run in which 256 queued activities turn away the next one after it was recorded |
| `Ownership.CreatedIsSound` | internal/database/packages.go:74-118 | get-or-create hands out a package only to its owner and never changes an owner |
| `Ownership.OnlyOwnPackage` | internal/activitypub/inbox_content.go:120-301 | no call for an activity touches the rows of a package whose owner is another actor |
| `Ownership.StepKeepsInv` | internal/activitypub/inbox_content.go:120-412 | every step keeps the owners, the authorizations given so far and the sources of versions |
| `Ownership.ActivityTouchesOwnOnly` | internal/activitypub/inbox_content.go:120-412 | in every run an activity of one actor leaves package, version, tag and file rows of every other owner's package as they were |
| `Ownership.ChecksAreExact` | internal/activitypub/inbox_content.go:120-130 | the lookup finds the repository with its owner if there is one, and the check lets exactly the owner through |
| `Ownership.CreateTakesEffect` | internal/activitypub/inbox_content.go:271-288 | an allowed Create stores the manifest with the sender as source and its subject, and then exactly its layers |
| `Ownership.TagTakesEffect` | internal/activitypub/inbox_content.go:286-301 | an allowed tag is written if its package still exists, and no other tag moves |
| `Ownership.DeleteTakesEffect` | internal/activitypub/inbox_content.go:132-180 | an allowed Delete takes the manifest with its tags and file rows, or the tag, and a deleted manifest is entombed |
| `Ownership.OwnersNeverChange` | internal/database/packages.go:74-118 | a package id has one owner, ever |
| `Ownership.SourceIsOwner` | internal/activitypub/inbox_content.go:271-284 | every stored version's source is absent or the owner of its package |
| `Strays.HomelessIff` | internal/activitypub/inbox_content.go:271-284 | in every run a version row is without its package if and only if it goes back to a PutManifest of an activity, or of a pull-through read, that ran while the package id was missing |
| `Strays.VersionCanStray` | internal/activitypub/inbox_content.go:217-284 | a run in which the package is deleted between its creation and the storing of the manifest |
| `Strays.DanglingIff` | internal/activitypub/inbox_content.go:460-479 | in every run a file row is without its version if and only if it goes back to an inbox call that recorded layers for a version deleted since it was looked up |
| `Strays.FileCanStray` | internal/activitypub/inbox_content.go:460-479 | a run in which the version is deleted between its lookup and the recording of its layers |
| `Replication.Target.EnsureBlob` | internal/replication/worker.go:242-260 | success means the target has the blob, failure leaves it as it was |
| `Replication.BlobsAreAll` | internal/replication/worker.go:281-295 | the blobs of a manifest are its config and all its layers |
| `Replication.ReadyToPut` | internal/replication/worker.go:194-231 | with acyclic references a visited child is never in progress, so it is on the target |
| `Replication.Walk.ReplicateChildren` | internal/replication/worker.go:208-214 | the children in order, with the parent in progress |
| `Replication.Walk.Replicate` | internal/replication/worker.go:194-231 | every request it makes is complete, success settles the digest, and unvisited digests shrink with every call on any graph |
| `Replication.Walk.Process` | internal/replication/worker.go:161-231 | at every PutManifest of every run, by digest or by tag, failed runs included, children and blobs are already there; success leaves the whole closure and the tag on the target |
| `Upload.DiskBlobWriter.Write` | internal/oci/blobwriter.go:37-53 | succeeds exactly when the upload is open, the chunk fits and the system takes it whole, and then appends it to file, size and hash; otherwise what the system took is counted alike in all three |
| `Upload.DiskBlobWriter.BeginCommit` | internal/oci/blobwriter.go:80-104 | finalizes at most once, and goes on exactly when the digest matches and the file is open |
| `Upload.DiskBlobWriter.Release` | internal/oci/blobwriter.go:115-129 | closes the file, and only the first call runs onDone |
| `Upload.LocksNestOneWay` | internal/oci/handler.go:306-329 | the registry lock is requested under no other lock, a writer's lock at most under the registry's |
| `Upload.NoDeadlock` | internal/oci/handler.go:222-348 | as long as some thread is inside an operation, some such thread can move |
| `Upload.StepKeepsInv` | internal/oci/blobwriter.go:37-133 | every step of every thread keeps the writers, the threads' knowledge, mutual exclusion and the stored blobs right |
| `Upload.WriterAlwaysAgrees` | internal/oci/blobwriter.go:37-133 | in every interleaving staged bytes, size and hash agree within the limit, the commit callback and onDone each start at most once, and every stored blob hashes to its digest |
| `Upload.LocksExclude` | internal/oci/blobwriter.go:37-133 | no two threads hold the same lock |
| `Upload.CallbackIsJustified` | internal/oci/blobwriter.go:80-104 | the callback starts only as the first of its upload and only for the digest of the staged bytes |
| `Upload.FinalizedIsFrozen` | internal/oci/blobwriter.go:37-53 | once finalized, the content never changes |
| `Upload.FinishedStaysGone` | internal/oci/handler.go:1184-1194 | once onDone has run the id is never again in the map, and once its delete of the session row has succeeded never again in the sessions table |
| `Upload.NothingLeaks` | internal/oci/handler.go:1177-1237 | when all calls have returned, no finalized or closed upload has a staging file or a map entry, and every open staging file is in the map |
| `Upload.WriteAppends` | internal/oci/blobwriter.go:37-53 | a chunk that fits is appended whole to an open upload, and to no other |
| `Upload.RegistryStepsAreExact` | internal/oci/handler.go:1119-1170 | registering lists the upload and its session row follows or it is taken back; a request resumes exactly what is listed; the reaper unlists and closes |
| `Upload.CommitStores` | internal/oci/handler.go:1196-1220 | a commit whose store succeeds puts the staged bytes under their digest, and there they stay |

## Left out

- HTTP handling, authentication, signatures, JSON and zip parsing, metrics, notifications and logging: plumbing without state worth an invariant.
- The npm, cargo, pypi, nuget and goproxy backends, which publish with the same get-or-create and put calls under other package kinds; search and statistics queries, which only read; schema migrations.
- Postgres: its weaker isolation is not modelled, only SQLite's.
- Glob matching of pinned tags and of federation filters, and the overlay of per-repository retention settings: a predicate and a policy function are given instead.
- Sweep.TagsNewestFirst: equal update times are ordered by name, because the source leaves their order open and the results need a stable one.
- Collector.GarbageCollector.PruneBatch: the ORDER BY of the prune query is not modelled; any selection of the right size is allowed, which includes the source's.
- Strays.DanglingIff: the surrogate id by which a file row refers to its version is replaced by the version's natural key, so a version stored again under the same digest takes over stray layer rows, which in the source stay stray.
- RepoDelete.DeleteIsExact: for the same reason a stray layer row counts as the repository's once its version is stored again.
- RepoDelete.DeleteOwnedRepositoryWithBlobs: the report lists are sets, so their order is not captured.
- Collector.GarbageCollector.Collect: each phase reads the clock once, except pruning, which reads it for every batch; withdrawing pruned tags and manifests from followers is not modelled.
- Grace.GraceProtects: the drift phase appears only as a step that sets a flag.
- Grace.EndangeredIff: a manifest delete in its machine may also take layer rows whose version is already gone, which no statement of the source does.
- Handshake.HandshakeCompletes: both nodes are in mutual mode; Reject and Undo are not in the machine, and messages may be repeated and reordered but not lost.
- Delivery.StepKeepsInv: marks succeed and the process does not stop between a post and its mark; the delivery breaker appears only as the choice to skip an attempt.
- FanOut.CollectInboxes: there is a largest row id while the scan runs, so that the scan ends; the lookups of one page run one after the other instead of in parallel.
- Ownership.ActivityTouchesOwnOnly: the namespace check of a sender appears only as a call that may fail, and packages of other kinds are not modelled.
- Intake.DispatchedAtMostOnce: signature checks, blocks and rate limits come before the first step and are not modelled.
- Replication.Walk.Process: retries of a job and the per-target counters are not modelled.
- Upload.StepKeepsInv: removing stale staging files by path is modelled only as the locks it takes; an open file keeps its content when its path goes away.
- The withdrawal of deleted repositories from peers, manual peer management and health checks are not modelled.

# shared-memory-fs: a model and its proofs

shared-memory-fs keeps one copy of every file in pooled shared buffers that all threads read
without copying. The main thread writes and frees; worker threads follow by messages. This project
models the parts that make this safe and proves what they promise.

- `Layout`, `Protocol`, `Invariant`, `Consumers`, `Retirement`, `Flush`, `Safety`: the retirement
  protocol as a step system. Each synchronous stretch of a handler is built from its events, each
  port is a pair of FIFO queues whose last event is the close, and each `await` separates steps.
  History variables record who owns which bytes and every update ever posted.
- `History`, `Requests`, `Threads`, `Releases`, `Draining`: results over whole runs: what stays of
  the past, which update answers which request, what one thread does, one release per retained
  version, and that everything is freed in the end and nothing comes back.
- `Extents`, `Registry`, `Ownership`, `Relocation`, `Cache`: the segment pool, the best-fit
  allocator with its free lists, and compaction, as classes that change in place.
- `ThreadPins`, `Leases`, `Upkeep`, `Commits`, `Kernel`, `WorkerThread`: pins and their handles, and
  the handlers of the main kernel and of a worker as classes. `VfsKernel.Valid()` says that the
  state of the class is a reachable state of the protocol, that the allocator owns exactly the
  bytes the protocol accounts for, that no published entry lies in a closed segment, and that the
  pins are the handles out; so every result about the protocol holds of the class.
- `Coherence`, `Pipeline`, `Interleaving`, `Serving`: source and companions of a file, from one
  publication to every thread, and mutations that workers ask the main kernel for.
- `Paths`, `PlaceFiles`, `Keys`, `Companion`: keys, companion keys and the directory index.
- `MutationQueue`, `Namespace`, `Hierarchy`: ordering of mutations, and the hierarchy under overlap.
- `Publication`, `Subtree`, `Mutations`, `Effects`, `Checks`, `MapStore`, `SabStore`, `Overlap`,
  `Abstraction`: the two stores, each as a class, the refinement of one by the other, what each
  mutation does and why it refuses, overlapping runs on contents, and the kernel index seen as contents.
- `Rpc`, `Ranges`, `Readers`, `Streams`: requests of a worker, and read streams over pinned versions.

An entry carries three values the program does not store: `id` stands for the identity of the entry
object, `bytes` for what was written when it was placed, and `origin` for the source version it is
or was built from. Only the specifications compare them. The number `commit` of a response and the
record of which update a request was committed as are history too: the program sends neither.

Two points where the code decides and its comments do not say so. A mutation client that is closed
with an empty reason still takes requests (`MutationRpc.ClosedWithoutReason`); the library never
passes one. Renaming a file to itself returns early in the Map store and publishes it again in the
shared store, with equal content (`Mutations.SabRefinesMap`).

## Model

| member | source | states |
|---|---|---|
| Safety.NoUseAfterFree | lib/kernel.js:965-1104 | In every reachable state, whatever any thread projects or pins with a stream or lease is still allocated to that version alone, holds exactly the bytes written when it was placed, and no live extent of another version overlaps it. |
| Safety.WritesMissReadableBytes | lib/kernel.js:844-862 | No step of any handler, allocation, file read or relocation changes a byte some thread can still read. |
| Safety.PinnedReadIsStable | lib/pins.js:25-54 | Whatever was retired, freed or reused meanwhile, a pinned version reads as it did when it was published. |
| Safety.ExactOwnership | lib/kernel.js:944-1019 | Every live extent belongs to exactly one published entry, retired record or publication in progress, the three exclude one another, and extents never overlap. |
| Safety.NoDoubleFree | lib/kernel.js:1094-1104 | Freeing a record takes its version out of the books, and at that moment no thread can read it. |
| Draining.FreedForGood | lib/kernel.js:1094-1104 | Over every run: once a version is freed its record and its id never return, no thread ever reads it again, and it is not freed a second time. |
| Safety.RetainedForSomeone | lib/kernel.js:1048-1104 | Once a handler has settled, each retired record waits for an update some live link has not acknowledged, or for a consumer of the main thread or of a live link. |
| Safety.NothingRetainedForever | lib/kernel.js:1048-1104 | When nothing is under way and no pinned version is retired, nothing is retired and nothing waits for an acknowledgement. |
| Draining.EverythingFreed | lib/kernel.js:1048-1104 | From every reachable state in which no thread has a consumer, a run of events that need nobody else (messages taken, exits noticed, records freed) ends with no retired record, no pending acknowledgement and every port empty, with the published history unchanged. |
| Safety.ProjectionRefinement | lib/kernel.js:385-407 | For every link in every reachable state, the updates queued on its port applied in order to its projection give exactly the main index. |
| Safety.RetirePairsNameProjectedVersions | lib/kernel.js:1024-1042 | Each key and retireId of an update names the version its receiver still projects under that key when it takes the update. |
| Requests.ReadYourWrites | lib/kernel.js:515-557 | When the response to a request is the next message of a worker, the request is still open there, its handler has ended, the response names the update its epoch was committed as, the worker has applied that update, and no second response is under way. |
| Requests.OwnUpdateApplied | lib/kernel.js:515-557 | Over every run in which a request was committed: the response names exactly the update made of that commit, the worker has gone through the index right after it, and what it projects now is that index or a later one. |
| Serving.ServeMutation | lib/kernel.js:515-557 | The main kernel runs a validated job as one epoch on the account of the request and only then answers; a refusal posts nothing. The response names the update of that epoch. |
| Serving.Execute | lib/kernel.js:535-557 | A removal never fails; a publication or a move fails only when what it is to store cannot be prepared, cannot be built or finds no place, and a subtree move only when a copy finds no place. |
| Serving.ResponsePosted | lib/kernel.js:515-533 | After the answer the last message of the port is the response, with the number of the update the job was posted as, or zero when it changed nothing; it comes behind every update of the job. |
| Serving.OwnMutationRead | lib/kernel.js:515-557 | Whatever happened after a mutation was served: when the worker that asked takes the response it has gone through the index right after its own mutation, in which each change of the job is made, and is never behind it. |
| Safety.StepKeepsInv | lib/kernel.js:1048-1104 | Every event of the protocol keeps the whole invariant: history, ownership, records, acknowledgements, holders and ports. |
| FlushProof.FlushKeepsInv | lib/kernel.js:965-1019 | Committing an epoch with any changes keeps the invariant: what it replaces is retired under fresh ids, held for the main thread where it is still read, and awaited from exactly the links it is posted to. |
| Consumers.ReceiveKeepsInv | lib/kernel.js:1148-1162 | A worker that applies an update, binds what it still reads and acknowledges keeps the invariant. |
| Consumers.UnpinKeepsInv | lib/pins.js:37-46 | Dropping a consumer, and the release its last one sends, keeps the invariant. |
| Retirement.ServeKeepsInv | lib/kernel.js:1060-1076 | Taking an acknowledgement or a release off a port keeps the invariant: retained versions are held before anything can be freed. |
| Retirement.NewLinkKeepsInv | lib/kernel.js:385-407 | A link that starts from a snapshot of the index keeps the invariant, pending updates included. |
| Retirement.ExitKeepsInv | lib/kernel.js:1079-1090 | A closed port stands for every acknowledgement and release its worker still owed. |
| Retirement.FreeKeepsInv | lib/kernel.js:1094-1104 | Freeing a record nobody holds keeps the invariant. |
| ThreadPins.PinTable.RetainAll | lib/kernel.js:1033-1035 | Every version an update retires while it is in use is bound to its retireId, and exactly those retireIds are returned. |
| Leases.PinnedWhileLeased | lib/pins.js:25-46 | Over every run of acquisitions, releases and retirements a version stays pinned exactly as long as one of its handles is not released. |
| Leases.ReleaseIsIdempotent | lib/pins.js:29-34 | A handle released again changes nothing. |
| Leases.SentByLast | lib/pins.js:37-46 | A release message is sent exactly when the last handle of a version retired in use is released, under the retireId it was bound to. |
| Leases.OneReleasePerVersion | lib/pins.js:25-54 | For every version retired in use at most one release is sent in all, and while it is not sent a handle is still held. |
| ThreadPins.PinTable.Acquire | lib/pins.js:25-35 | Each acquisition gives out a handle of its own on the version; the pins of a thread are exactly the handles out. |
| ThreadPins.PinTable.Release | lib/pins.js:29-46 | The closure given out by an acquisition: the first call ends its hold and yields the retireId when it was the last on a retired version; every other call changes nothing. |
| Releases.OneReleaseEach | lib/pins.js:37-54 | Over every run of the whole protocol: of the versions a worker told the main kernel it retains, each has its release sent exactly once after its last consumer is gone, and none before. |
| Kernel.VfsKernel.Flush | lib/kernel.js:965-1019 | The imperative flush commits the epoch in one step, posts one update to every link, retires what it replaces under fresh ids, and settles: no key loses or changes content by what follows, and private entries of other attempts stay. It terminates through track, settle and compact, because every nested compaction leaves strictly fewer open segments. |
| Kernel.VfsKernel.Settle | lib/kernel.js:1094-1104 | Every record that nothing holds is freed and no other. If there was one, then of the books as the frees left them either nothing can be moved, and nothing else happens, or a least used segment below the threshold is emptied and closed by the end; if there was none, nothing happens at all. |
| Kernel.VfsKernel.Compact | lib/kernel.js:1109-1117 | A compaction names its target, the least used open segment below the threshold, and when it and everything it sets off is done no published entry lies in that segment and the open segments are strictly fewer; without a target there was nothing to move or no room, and the index is untouched. Content, segments and leases stay. |
| Kernel.VfsKernel.FlushFor | lib/kernel.js:965-1019 | A flush on the account of a request records the update it was committed as, and records none when there was nothing to commit. |
| Kernel.VfsKernel.Answer | lib/kernel.js:515-557 | The response is posted after the updates of the epoch and carries its number; to a link that is gone nothing is posted. |
| Kernel.VfsKernel.Track | lib/kernel.js:1048-1056 | Retired versions wait for every live link, or are settled at once when there is none. |
| Kernel.VfsKernel.HandleAck | lib/kernel.js:1060-1066 | Retained versions are held before the acknowledgement can free anything; the last one pending settles what the update retired, and a compaction is due exactly when that freed something. |
| Kernel.VfsKernel.HandleRelease | lib/kernel.js:1069-1076 | The hold of one thread on one retired version ends; if nothing else holds it, it is freed and a compaction is due. |
| Kernel.VfsKernel.HandleWorkerExit | lib/kernel.js:1079-1090 | A worker that is gone neither acknowledges nor reads: every record that waited only for it is freed, and then a compaction is due. |
| Kernel.VfsKernel.OnMessage | lib/kernel.js:388-393 | Taking any message off a port does what the protocol says and leaves the kernel settled. |
| Kernel.VfsKernel.Link | lib/kernel.js:385-407 | A new link gets the current index as its snapshot and every later update. |
| Kernel.VfsKernel.Unpin | lib/pins.js:29-46 | A handle of the main thread ends its hold once; with the last one on a retired version the version is freed at once, and a compaction is due. |
| Kernel.VfsKernel.Apply | lib/kernel.js:1024-1042 | The pins are bound against the old projection and only then the projection takes the update; exactly the ids bound are returned. |
| Kernel.VfsKernel.PutAll | lib/kernel.js:971-997 | Every change of the epoch is put or removed once, and exactly the shared, non-empty versions it replaces get the next retireIds. |
| Kernel.VfsKernel.Stage | lib/kernel.js:944-950 | An entry that a later change of the same epoch replaces leaves the books before anybody could read it. |
| Kernel.VfsKernel.StageAll | lib/kernel.js:860-861 | What an attempt made is staged in order, and stale companions are dropped, in one synchronous stretch. |
| Kernel.VfsKernel.GiveUp | lib/kernel.js:856-859 | A failed attempt frees its own bytes and nothing else. |
| Kernel.VfsKernel.BeginRead | lib/cache.js:254-263 | An extent reserved for a file read over time belonged to nobody and is nobody else's until the read ends; none is refused while the pool can hold one. |
| Kernel.VfsKernel.ReadChunk | lib/cache.js:261-263 | The bytes that arrive for a file are written at their place in the extent reserved for it, and no other byte changes. |
| Kernel.VfsKernel.EndRead | lib/cache.js:254-272 | A finished read turns the reserved extent into a private entry that holds exactly the bytes which arrived. |
| Kernel.VfsKernel.FailRead | lib/cache.js:264-267 | A failed read gives its extent back. |
| Kernel.VfsKernel.ReadableBytesStay | lib/kernel.js:965-1104 | In the kernel itself: whatever a thread can read is owned in the allocator, lies in a segment in use, and the segment holds its bytes. |
| Kernel.VfsKernel.OwnedExactly | lib/cache.js:236-309 | In every segment the bytes in use are exactly those of published entries, retired records and private attempts. |
| Commits.RelocationShrinks | lib/cache.js:322-368 | The measure of the recursion: after a compaction the segments open to the next one are the open ones without the closed target, so strictly fewer. |
| WorkerThread.WorkerKernel.OnMessage | lib/kernel.js:1152-1158 | Whatever message comes next, this end of the link becomes what the protocol says, and no handle of the thread is lost. |
| WorkerThread.WorkerKernel.OnResponse | lib/mutation-rpc.js:79-86 | A response settles the open request it answers, and by then the thread has applied the very update the request was committed as. |
| WorkerThread.WorkerKernel.Ask | lib/mutation-rpc.js:88-107 | A request goes out under an id never used before and is pending, or is refused when the client is closed or the post fails. |
| WorkerThread.WorkerKernel.OnClose | lib/kernel.js:1159-1160 | When the main kernel is gone every pending request is rejected, and projection, pins and what was posted stay. |
| WorkerThread.WorkerKernel.Unpin | lib/pins.js:29-46 | A handle released with the last hold on a retired version posts one release; a handle already released posts nothing and changes nothing. |
| Registry.Pool.CreateSegment | lib/cache.js:68-80 | The oldest empty segment is reused first; a new one is made only within the limit; existing segments stay. |
| Registry.SegmentRegistry.BestExtent | lib/cache.js:127-140 | The extent found is the shortest that fits in any open segment, and none is found only when none fits. |
| Registry.SegmentRegistry.Allocate | lib/cache.js:123-163 | Bytes handed out belonged to nobody and are the start of a best-fitting free extent, else of the tail of the first open segment that takes them, else of the oldest empty or of a new segment, and nothing else in the books changes; refused if and only if none of these can take the size. |
| Registry.TookHeld | lib/cache.js:123-163 | What was handed out could be held: a refusal and a placement exclude one another. |
| Registry.SegmentRegistry.Release | lib/cache.js:165-172 | Exactly the released bytes become free, and the free list stays sorted, disjoint and coalesced. |
| Registry.SegmentRegistry.MergeSiblings | lib/cache.js:174-186 | Joining a span with the neighbours it touches leaves a coalesced list of exactly the same free bytes. |
| Registry.SegmentRegistry.Used | lib/cache.js:188-194 | The loop over the free list yields exactly the used bytes, zero for a segment that is not registered. |
| Extents.UsedCountsOwned | lib/cache.js:188-194 | Tail minus the free lengths is the number of bytes below the tail that lie in no free extent. |
| Registry.UsedIsOwned | lib/cache.js:188-194 | The count is the number of owned bytes, and zero exactly when nothing of the segment is owned, so an emptied segment can be told from one in use. |
| Cache.FilesystemCache.Put | lib/cache.js:277-283 | Publishing returns the replaced version and reopens a segment that compaction had closed. |
| Cache.FilesystemCache.Release | lib/cache.js:302-309 | Exactly the extent is given back, and a segment left without used bytes joins the empty ones. |
| Cache.FilesystemCache.Place | lib/cache.js:244-272 | Bytes find no place if and only if they are too many for the limit, or there are some and the pool has no extent, tail, empty segment or budget for them; otherwise the entry holds exactly them. |
| Cache.FilesystemCache.Allocate | lib/cache.js:236-272 | Bytes that contradict their stat are an error; what is to stay on disk or finds no place points at its path or is refused, as the caller allows; everything else goes into the pool. |
| Kernel.VfsKernel.Allocate | lib/cache.js:236-272 | The same for the kernel: a placed entry joins the ledger as private, and a refusal leaves the state as it was. |
| Cache.FilesystemCache.LeastUtilised | lib/cache.js:324-335 | The target is an open segment with the lowest utilisation below the threshold, and none is found only when there is none. |
| Relocation.TargetOwnsLeast | lib/cache.js:324-335 | In bytes: a target is an open segment, not the only one, of which no more bytes are owned than of any other open one, and less than the threshold allows. |
| Cache.FilesystemCache.CopyAll | lib/cache.js:345-366 | All published entries of the target are copied into open segments without growing the pool; or none is, only if, taking room for them one by one as the allocator does, one comes that no open segment can take, and then the bytes owned are as before. |
| Cache.FilesystemCache.Compact | lib/cache.js:322-368 | A plan copies every published entry of its target and closes it, writing over no owned byte and adding no segment; without a plan the set of owned bytes, the index and the closed segments are as before, and there was nothing to move or no room to move it to. |
| Cache.FilesystemCache.RollBack | lib/cache.js:350-356 | Releasing the copies made so far restores the set of owned bytes exactly, whatever the tails and free lists became. |
| Coherence.CoherentInEveryThread | lib/kernel.js:844-921 | Over every run of publications with failed codecs, removals, file and subtree renames and compactions, each companion any thread projects has bytes the compiler or codec may make of the bytes of the very source version that thread projects, and none outlives its source. |
| Interleaving.ShiftAtCommit | lib/kernel.js:487-510 | Whatever other places publish, whatever is acknowledged and however often compaction moves files between the copies of a subtree rename and its commit, at the commit the epoch still shifts the index as it is then. |
| Coherence.EpochKeepsCoherent | lib/kernel.js:944-958 | Any epoch of publications and removals in any order, a subtree rename and a compaction each keep source and companions together. |
| Coherence.KernelFlushCoherent | lib/kernel.js:965-1019 | The same through the kernel: a flush with all the settling and nested compaction it sets off keeps every index any thread may project coherent. |
| Pipeline.StoreShared | lib/kernel.js:844-862 | The source, the companions built from its bytes and the removal of those that could not be built are staged together. It fails if and only if the source finds no place and has no file to point at, or bytecode has no bytes to be compiled from, or a script does not compile or fit; then the attempt is freed and nothing staged. |
| Pipeline.BuildCompanions | lib/kernel.js:868-921 | Every flavor is tried once and in order, from the canonical bytes: a companion is kept if and only if there are bytes, they build, and the pool as the earlier ones left it has a place for the result. |
| Pipeline.AttemptSurvives | lib/kernel.js:841-862 | Whatever other epochs publish, free or move between two steps of an attempt leaves its entries as they are. |
| Pipeline.PublishVirtual | lib/kernel.js:453-458 | An accepted publication ends with the source and exactly the companions that build and fit published and every other file as it was; one is refused only for the reasons above, and changes no index and no ownership. |
| Pipeline.StoredAt | lib/kernel.js:844-862 | After the update the source and its companions are what was stored, stale companions are gone, and every other key has its old content. |
| Pipeline.UnstageKey | lib/kernel.js:953-958 | The staged epoch removes the source and each key that any kind of companion of it could have, and keeps its other changes. |
| Pipeline.UnpublishVirtual | lib/kernel.js:461-465 | The sources and their companions go in one update, and every other file stays. |
| Pipeline.RemovedAt | lib/kernel.js:461-465 | After the update exactly the named sources and their companions are gone. |
| Pipeline.RenameVirtual | lib/kernel.js:471-480 | In one update the source and companions under the old key are gone and the bytes, prepared for the new key, are there with companions built from them; a failure changes no index and no ownership. |
| Pipeline.RenameTree | lib/kernel.js:487-510 | Every file of the subtree is copied and then the old keys go and the copies come in one update, and nothing else changes; or, only if one of the copies finds no place, nothing happens. |
| Pipeline.ShiftedContent | lib/kernel.js:487-510 | After a subtree rename each file under the old directory is found under the new one with the same bytes, and every other file is as it was. |
| PlaceIndex.PlaceFiles.Set | lib/place.js:19-22 | After any set the index agrees with a scan of the keys: a name is in a directory exactly when some source is at or below it. |
| PlaceIndex.PlaceFiles.Delete | lib/place.js:24-28 | The same after any delete, also when a key is a prefix of another. |
| PlaceIndex.PlaceFiles.Link | lib/place.js:58-73 | Walking the string of a new key names it in every directory above it. |
| PlaceIndex.PlaceFiles.Unlink | lib/place.js:77-87 | Walking up from a removed key removes exactly the names nothing bears any more and the directories left empty. |
| PlaceIndex.PlaceFiles.HasDirectory | lib/place.js:36-38 | A directory is present exactly when some source lies below it. |
| PlaceIndex.PlaceFiles.Children | lib/place.js:41-47 | Exactly what the directory holds directly, each file and each directory once. |
| PlaceIndex.PlaceFiles.Below | lib/place.js:50-55 | Terminates and yields each source and each implied directory strictly below exactly once, and nothing else. |
| PlaceIndex.PlaceFiles.KeysUnder | lib/place.js:217-223 | Exactly the sources under the directory, each once. |
| PlaceIndex.PlaceFiles.IsDirectory | lib/place.js:210-213 | Answers true exactly when the key spells the root or some source lies under it. |
| CanonicalKeys.AcceptedIsCanonical | lib/place.js:236-245 | What is accepted starts with a slash, consists of non-empty names other than dot and dot-dot without NUL or backslash, and is its own canonical key. |
| CanonicalKeys.AcceptedAre | lib/place.js:236-245 | A key is accepted if and only if it is one or more names between slashes, with a slash in front or without, none of them empty, dot or dot-dot or with a NUL or backslash in it; and its canonical form is these names with a slash in front. |
| CanonicalKeys.SameKey | lib/place.js:236-245 | Two accepted spellings name the same file exactly when they differ in the leading slash at most. |
| Namespace.OneDirectory | lib/place.js:92-97 | However a directory is spelled, with slashes behind it or without the one in front, it is the same directory. |
| CanonicalKeys.CanonicalKeyOf | lib/place.js:236-245 | The loop over the names accepts exactly the canonical keys. |
| Companion.CompanionOf | lib/companion.js:14-25 | A companion key is no source key and names its source. |
| Companion.CompanionsApart | lib/companion.js:14-18 | Two companion keys are equal only for the same source and flavor. |
| Companion.Rekeyed | lib/companion.js:14-18 | The suffix of a companion key put behind a new source is the companion key of that source. |
| MutationOrder.ConflictingTasksInOrder | lib/mutation-queue.js:34-57 | Over every run, tasks of one place that share a key, or of which one is exclusive, never overlap and run in arrival order, although a barrier clears the key tails and finished records are dropped. |
| MutationOrder.WaitsOnConflictsOnly | lib/mutation-queue.js:34-57 | A task waits directly only on earlier tasks it conflicts with. |
| MutationOrder.NoDeadlock | lib/mutation-queue.js:34-57 | When something is queued and nothing runs, some task can start. |
| MutationOrder.IdleLeavesNoRecord | lib/mutation-queue.js:60-71 | Once every task has ended and released its locks no record of a place is left. |
| MutationOrder.DifferentKeysNeverWait | lib/mutation-queue.js:34-57 | Tasks of different keys do not wait for one another. |
| MutationOrder.MutationQueue.Run | lib/mutation-queue.js:34-57 | Queueing collects the tails of the held keys or all of them, and leaves its own. |
| MutationOrder.MutationQueue.Release | lib/mutation-queue.js:60-71 | A finished task clears only tails that are still its own and drops an unlocked record. |
| Hierarchy.HierarchyUnderOverlap | lib/sab-store.js:51-163 | Over every interleaving of writes, appends, unlinks, rm, mkdir, file and subtree renames, published sources together with keys in flight form an antichain: no path is ever a file and a directory. |
| Hierarchy.StepKeepsInv | lib/sab-store.js:51-163 | Each arrival, turn, commit, failure, end and lock release keeps the locks, the count of keys in flight and the hierarchy. |
| Namespace.CreateKeepsAntichain | lib/pipeline.js:231-239 | A key that passes the check can be created without putting a file above or below another. |
| Namespace.CheckedIsApart | lib/pipeline.js:231-239 | The check refuses a key if and only if it cannot join the published keys and those in flight: ENOTDIR when one of them is above it, EISDIR when one is below it. |
| Namespace.MoveKeepsAntichain | lib/pipeline.js:279-303 | A subtree that passes the check moves without putting a file above or below another. |
| Checks.FileAbove | lib/pipeline.js:215-223 | The walk towards the root finds something exactly when a source or a key in flight lies above. |
| Checks.CheckHierarchy | lib/pipeline.js:231-239 | The error is ENOTDIR below a file, EISDIR on a directory or above a key in flight, none otherwise. |
| Checks.SubtreeMoves | lib/pipeline.js:279-303 | The plan lists every source under the directory and every companion once with its key after the move, or gives the reason nothing moves. |
| Publication.PublishedIsApplied | lib/map-store.js:56-82 | Committing the epoch of a publication does to the key-to-file map what the Map store does in place. |
| Publication.PublishKeepsCoherent | lib/map-store.js:56-82 | After a publication the companions of every source are exactly those it yields. |
| Publication.UnpublishKeepsCoherent | lib/map-store.js:84-90 | Removing sources removes their companions and no others. |
| Publication.RenamedIsApplied | lib/kernel.js:471-480 | One epoch that removes the old key and publishes the new one equals publishing and then removing, also when both keys are the same. |
| Subtree.SubtreeRenameIsBijection | lib/pipeline.js:279-303 | New keys are pairwise distinct and disjoint from all existing ones, and the whole content survives under them. |
| Subtree.RekeyCompanion | lib/pipeline.js:294-301 | Re-keying a companion gives the companion of the re-keyed source. |
| Subtree.MoveKeepsCoherent | lib/map-store.js:179-185 | A subtree move keeps every companion with its source and the hierarchy of names. |
| Subtree.TreeIsApplied | lib/kernel.js:487-510 | The single epoch of a subtree rename does what deleting all old keys and then setting all new ones does. |
| Effects.MapAnswers | lib/map-store.js:103-185 | Of every mutation in every coherent place: if it is accepted the file has what its preparer makes of the given bytes, or of the old ones followed by them, or of the renamed file, with the right time, or is gone, or is below its new directory, and every other source is as it was; if it is refused the code is true of what was there. |
| SabStores.TurnIsRight | lib/sab-store.js:66-163 | The same of a turn among keys in flight: what it is to publish, remove or move, and why it refuses. |
| SabStores.CreateStores | lib/sab-store.js:51-59 | A publication that ends succeeds if and only if its bytes can be prepared and compiled, and then stores exactly what its turn asked for and takes away the renamed file. |
| Mutations.SabRefinesMap | lib/sab-store.js:66-163 | Every mutation run alone is accepted or refused alike by both stores, with the same error except that a script that does not compile has no code of its own in the shared store, and leaves the same content. |
| Mutations.HistoriesAgree | lib/sab-store.js:66-163 | After every sequential run of mutations both stores hold the same keys with the same content. |
| Mutations.MapRunKeepsCoherent | lib/map-store.js:103-185 | Every accepted mutation leaves a coherent place: companions exactly those of their sources, and no file above another. |
| MapStores.MapStore.Publish | lib/map-store.js:56-82 | Either the source and all its derived entries are replaced, or, when a required one cannot be built, no entry changes. |
| MapStores.MapStore.Write | lib/map-store.js:103-109 | Stores the prepared or given bytes with the time of the write, or is refused for a reason that holds and changes nothing; the place stays coherent. |
| MapStores.MapStore.Append | lib/map-store.js:113-123 | Stores the old bytes followed by the new ones; a prepared file refuses. |
| MapStores.MapStore.Unlink | lib/map-store.js:125-130 | Takes exactly that file away; a directory or a missing file is refused with its own code. |
| MapStores.MapStore.Rm | lib/map-store.js:139-152 | Takes a file or every file below a directory away; a missing key is an error unless forced, a subtree unless recursive. |
| MapStores.MapStore.Rename | lib/map-store.js:158-175 | The file under its new key has the same bytes, prepared for it, and the same time, and the old key is gone; a directory moves as a whole. |
| MapStores.MapStore.MoveTree | lib/map-store.js:179-185 | The files become the moved content, or stay as they were with the code of the refusal. |
| SabStores.SabStore.Begin | lib/sab-store.js:66-163 | The turn finds and asks for what TurnIsRight says, and a publication is counted in flight from its check on. |
| SabStores.SabStore.LocksOf | lib/sab-store.js:144-147 | A file rename locks both keys, rm and a directory rename the whole place, everything else its key. |
| SabStores.SabStore.EndCreate | lib/sab-store.js:51-59 | The key is no longer counted whether the publication committed or failed; a commit stores what was asked for, and a failure, which says that it cannot be prepared or compiled, changes no file. |
| SabStores.SabStore.Run | lib/sab-store.js:66-163 | One mutation of the shared store with nothing else under way ends as the Map store specifies, with the effect or the reason of MapAnswers. |
| SabStores.TurnIsStep | lib/sab-store.js:66-163 | A turn of the store does to the names just what the overlap model does, so the hierarchy result holds for the store. |
| SabStores.CreateCommits | lib/sab-store.js:51-59 | The commit of a publication does to the source names just what the overlap model does. |
| Overlap.RunIsNames | lib/sab-store.js:51-163 | Every overlapping run of mutations on contents, turns, commits and failures in any order, is a run of the overlap model on names. |
| Overlap.CreateCommit | lib/sab-store.js:51-59 | A publication that commits after others went on leaves the place coherent, with exactly its key added and the renamed one gone. |
| Overlap.MoveCommit | lib/sab-store.js:149-163 | A subtree move at its commit leaves the place coherent, and the sources are the moved sources. |
| Overlap.CoherentUnderOverlap | lib/sab-store.js:51-163 | However the mutations of a place overlap, at every moment each source has exactly the companions it yields, none is orphaned, and sources and keys in flight form an antichain. |
| Abstraction.StoreShows | lib/kernel.js:844-862 | The epoch of entries a publication commits in the kernel index does to the bytes of the place what the publication of the file does to the contents of a store. |
| Abstraction.UnstageShows | lib/kernel.js:953-958 | The same for a removal. |
| Abstraction.ShiftShows | lib/kernel.js:487-510 | The same for a subtree rename. |
| Abstraction.CompactionShows | lib/kernel.js:1109-1117 | A compaction is invisible in the contents of every place. |
| MutationRpc.SettlesOnce | lib/mutation-rpc.js:71-117 | What a request settled to never changes, whatever arrives later. |
| MutationRpc.SettledBy | lib/mutation-rpc.js:71-117 | A request settles to an outcome exactly when the first of its response, a failed post or the end of the link says so; it resolves only on a response without an error. |
| MutationRpc.RunKeepsInv | lib/mutation-rpc.js:71-117 | Every request issued is pending or settled, never both, and the port is held open exactly while one is pending. |
| MutationRpc.ClosedSettlesAll | lib/mutation-rpc.js:111-117 | Once the link has ended for a reason every request has settled and none can become pending. |
| MutationRpc.ClosedWithoutReason | lib/mutation-rpc.js:88-117 | A closed client refuses further requests if and only if the reason was not the empty string; after an empty reason a request stays pending. |
| MutationRpc.MutationClient.Send | lib/mutation-rpc.js:88-107 | A request gets a fresh number and is pending with the port held open, unless the client is closed or the post fails. |
| MutationRpc.MutationClient.Handle | lib/mutation-rpc.js:79-86 | A response settles its request once; one to no pending request changes nothing. |
| MutationRpc.MutationClient.Close | lib/mutation-rpc.js:111-117 | Every pending request is rejected with the reason and the port let go. |
| Ranges.RangeAccepted | lib/place-fs.js:89-104 | A range is accepted exactly when it is not given or is non-empty, in order and inside the file, and then its ends are the given ones, absent and null ones being those of the file. |
| Readers.OpenedVersionRead | lib/place-fs.js:106-143 | Over every run of the protocol with readers in any threads: a reader that opened a version and read at any moments since has the bytes of that very version from start to where it stands, in chunks within its high-water mark, all of start to end when it is through; it holds its lease until it lets go and ends it once; and while it holds it the version is pinned there and safe. |
| Readers.PinnedWhileHeld | lib/pins.js:25-46 | In every such run the pin count of a version in the main thread or any worker is the number of readers of that thread that hold it. |
| Streams.VfsReadStream.Read | lib/place-fs.js:122-128 | Given only that the shared segments still hold the bytes of the version, each chunk is its next part within the high-water mark, and at the end the chunks make up exactly start to end. |
| Streams.VfsReadStream.HeldByMain | lib/place-fs.js:106-143 | As long as a stream of the main thread has not released its handle the segments hold the bytes of its version, whatever the kernel did since; no other premise is needed to read on. |
| Streams.VfsReadStream.HeldByWorker | lib/place-fs.js:106-143 | The same for a stream of any worker, whose pins the main kernel knows of only by messages. |
| Streams.Open | lib/place-fs.js:89-143 | A range that is not in the file pins nothing; otherwise the stream begins at the given start or at 0, ends at the given end or at the last byte, and holds a new handle on the version the key projects. |
| Streams.VfsReadStream.ReleaseInWorker | lib/place-fs.js:140-143 | In a worker the last release on a retired version posts one message; releasing again posts none. |
| Streams.VfsReadStream.Release | lib/place-fs.js:140-143 | Stops the stream and drops its pin once, however often it is called. |
| Streams.VfsReadStream.Destroy | lib/place-fs.js:129-132 | A stream of copies gives its pin back when it ends; one of borrowed views keeps it for whoever still holds a chunk. |

## Left out

- Kernel.VfsKernel.HandleRelease: takes one retireId; the message carries a list, which the pins of a thread always send with one element.
- Kernel.VfsKernel.Elsewhere: what happens beyond the ports is a parameter that must be a step of the protocol; thread scheduling itself is not modelled.
- Kernel.VfsKernel.PutAll: the order of the changes of an epoch, and with it which replaced version gets which of the fresh retireIds, is arbitrary.
- Kernel.VfsKernel.Flush: a closed kernel, which publishes nothing, is not modelled; segments reach a worker with the update that first uses them, which the shared memory of the model makes implicit.
- Pipeline.StoreShared: the compiler, the codecs and the preparers are arbitrary functions of the canonical bytes; nothing else runs between its allocations here, and Pipeline.AttemptSurvives says what other handlers leave alone.
- Pipeline.PublishVirtual: as above, with the commit in the same stretch.
- Pipeline.RenameVirtual: as above; the mtime that the renamed file keeps is in Publication and Mutations.
- Pipeline.RenameTree: the list of moves is given with what Checks.SubtreeMoves proves about its names; nothing else runs between its copies here, and Interleaving.ShiftAtCommit says that the epoch is still right when something does; stat and mtime of the copies are not modelled there.
- Serving.ServeMutation: which error a refusal carries is in Checks and SabStores; the text of the error is a parameter of the client.
- Abstraction.StoreShows: every companion that can be built found room in the pool, as in the two stores; script options, metadata and mtime are not part of an entry.
- Draining.EverythingFreed: gives a run that frees everything; that threads are scheduled so is not modelled.
- Readers.OpenedVersionRead: the readers of a worker that is gone end with it and are not released one by one.
- Coherence.CoherentInEveryThread: the configuration of a place does not change during a run.
- Mutations.SabRefinesMap: a Map place cannot have codecs (lib/config.js:593-594), so for the two stores of the library this is the statement for places without them; bytes always fit in the pool.
- Mutations.HistoriesAgree: as the single mutation above.
- SabStores.SabStore.Run: places the epoch in the projection of the main thread directly; the way of the same epoch through allocator, index and ports is in Pipeline, and Abstraction relates the two indexes.
- Hierarchy.HierarchyUnderOverlap: one place and names only; Overlap.RunIsNames and Overlap.CoherentUnderOverlap add the content.
- MutationOrder.MutationQueue.Run: a task is started by its environment once it is startable, where the program chains promises; clearing the queue on shutdown is not modelled.
- Leases.OneReleasePerVersion: closing the pins of a thread at shutdown is not modelled.
- MutationRpc.MutationClient.Send: payload copies and transfer lists, and the fields of a restored error, are not modelled.
- Streams.VfsReadStream.Read: buffering, back-pressure and the destroy that follows the end are those of the platform stream; an offset that is no integer is one case.
- Cache.FilesystemCache.Allocate: stat, scriptOptions and meta of an entry are not modelled.
- Scanning, watching, debounce and rechecks; disk territory and fallback reads; path routing; configuration checks; statistics and diagnostics; module hooks and patches of the platform file system; bytecode and compression themselves.
- The serial queue, which is the mutation queue with one key.

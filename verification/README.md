# git-edge, verified

A Dafny model of the parts of git-edge (a git server on Durable Objects, with packs in R2
and an index in SQLite) that have to be right while other things happen: garbage collection
that runs in slices while pushes land, the pack build it resumes after every kill, and the
smaller state machines around them.

* **Collection.** `Repository` is the one state: packs, object rows, the cohort's
  `bitmap`/`built`, the two-generation frontier, `gc_seen`, `gc_pending` with its cursor,
  refs, pins, `gc_epoch`, `refs_version`, the chain with its phase, build pack and cursor.
  `Steps` has one action for every SQL write of the mark walk, the pages, the drain, the
  build, the three retirements, the compaction, the wipes and the pushes; `Stop` ends a span
  after any write. A `Run` is any interleaving. `Shape`, `Shaping`, `Marking`, `Generations`
  and `Invariant` prove an invariant of every write and every cut; `Safety`, `Runs` and
  `Integrity` draw the theorems from it; `Frames` says what each action leaves alone.
  `Losses` says exactly what a retirement loses whatever was cut before it, `Cuts` which cuts
  tear a chain and when that is harmless, and `TornRun` is a run that loses an object.
  `Precision` is the mark's other bound: nothing is marked without a reason. `Traces` links states by runs, and `Drain` is the sweep's drain loop as a program,
  with its termination. `Bitmaps` and `Dedup` are the byte-level loops that decide the
  set-level questions.
* **Build.** `Hashing` is the checkpointable SHA-1/SHA-256, `PackWriting` the multipart
  writer, `Building` the straight copy a build must equal, `Slices` the resumable build,
  `Candidates` the scan that feeds it and what its output is to the protocol.
* **Around them.** `WakeQueue`/`WakeOrder` (forward deltas), `FetchGraph`/`Fetch` (what is
  sent, and when a fetch is refused), `Replan` (marks whose pack was merged away), `Reads`
  (how it is read), `Refs` (commands, ref log, protected refs), `Leases` (the job table),
  `Cohorts` (what is compacted, and when).

Object ids are opaque; links and kinds are a fixed function of the id, and the object at an
index of a pack is a fixed function of the pack, which is written once (`Content`). A live
object is one with a row in a live pack. `Reachable` means through live objects from refs,
peeled targets, pins and the packs outside the cohort. It is not claimed that all live
objects stay link-closed: a partial retirement may keep a pack whose unreachable object
links to one that went. Random pack ids and lease tokens are taken to be fresh; clocks,
budgets, kills and the pushes met at an `await` are arguments, so every theorem is about
all of them. Refs are opaque names; a landing feeds both its target and its peeled target.

Where code and promise part, the model follows the code:

* An atomic push that names one ref twice, or creates more refs than there is room for,
  passes the dry run and lands in part (`Refs.AtomicIff`, `Refs.RepeatedCreate`).
* A wanted tag of a tag is sent without the inner tag, and a tag's blob only if it is live
  (`Fetch.WantComplete`, `Fetch.NestedTagIncomplete`).
* An offset delta can be emitted before its base (`WakeOrder.OffsetBaseFirst` says exactly
  when, `WakeOrder.Overtaken` gives a pack).
* `select_cohort` and `next_wake` differ at the ends of the 64-bit range
  (`Cohorts.SteadyIff` says exactly when, `Cohorts.SaturationDisagrees` gives packs).
* An error can tear a chain. A wipe cut after it deleted the build pack's rows is harmless
  if and only if the chain no longer trusts that pack (`Cuts.WipeCutExact`): the cohort has
  lost a pack, or nothing was copied, or no flag-off sweep stands on the current version and
  the pack is dead, or not live with a cursor that claims nothing. A push without a barrier
  cut before its version bump is harmless unless a flag-off chain with a whole cohort stands
  on the current version, and then loses nothing reachable if and only if what it landed or
  links to was marked or outside the cohort (`Cuts.HalfPushHarmless`,
  `Cuts.HalfPromotedHarmless`). Every other cut is harmless, every state still satisfies the
  invariant, and a cut wipe is mended by a `wipe_build` that runs to its end. Whatever was
  cut, a retirement (swap, fallback, flag-off sweep or compaction) keeps a reachable object
  if and only if what was copied out of the retired packs is live outside them
  (`Losses.RetirementExact`, `Losses.LostExactly`); after a cut wipe that is what was posted
  again since, or lives in some other pack (`Losses.TornRetirement`, `Losses.TornLossless`).
  `TornRun.ReachableLoss` is a run that loses a referenced object.
* A checkpoint of the build is several statements. Cut after it wrote a part row and before
  the position, it is not a state to resume from, unless it was the first
  (`Slices.CheckpointCut`). A ref and its log row are two (`Refs.LogCut`).
* A purge of a deleted repository can die of one error, because boots count as attempts:
  `Leases.DeadExactly` and `Leases.EightErrors` say exactly when a row dies,
  `Leases.PurgeDiesEarly` is a history.

## Model

| member | source | states |
|---|---|---|
| Invariant.StepKeeps | server/src/jobs/gc.rs:582-822 | the whole invariant (shape of the tables, tricolour marking, generations) survives any single write of any action, and a stop after any write |
| Runs.RunInvariant | server/src/jobs/gc.rs:375-580 | it holds in every state of every run from a repository without a chain, whatever spans were cut in it |
| Marking.Promote | server/src/repo_do/mod.rs:1929-1940 | the pending row written before the promotion covers everything a pack that goes live brings |
| Marking.PushPromoteMark | server/src/repo_do/mod.rs:1788-1803 | promotion under a barrier keeps the marking invariant, on the tables as they are and as they will be if it is given back |
| Marking.WipeMark | server/src/jobs/gc.rs:1780-1792 | deleting the build pack's rows and marking it dead keep the marking invariant and every live object |
| Marking.PushLandMark | server/src/repo_do/mod.rs:2051-2088 | the feed written before the ref covers the new roots when the ref lands |
| Marking.PageMoveMark | server/src/jobs/gc.rs:887-977 | a pending cursor moves only past objects already in the frontier or seen |
| Marking.WriteSeenMark | server/src/jobs/gc.rs:755-822 | recording a batch as seen before its children are queued is safe while the rows are still in the frontier |
| Marking.DropExpandedMark | server/src/jobs/gc.rs:755-822 | the frontier rows of a batch may go once its bits, seen rows and children are written |
| Marking.DropMissesMark | server/src/jobs/gc.rs:700-752 | frontier rows of ids with no live row protect nothing and may go |
| Marking.FlipLiveMark | server/src/jobs/gc.rs:1795-1846 | the build pack going live adds only covered copies |
| Safety.BarrierInvariant | server/src/testhooks.rs:1497-1593 | every live object reachable from the roots whose copies are all unmarked cohort entries is reachable from the frontier or from pending non-blobs past their cursor |
| Runs.BarrierHolds | server/src/testhooks.rs:1497-1593 | that, after every single write of every run under a barrier chain |
| Safety.DrainedSafe | server/src/jobs/gc.rs:2008-2054 | with frontier and pending empty, every reachable live object is marked or has a copy outside the cohort |
| Safety.LiveBuildIsExact | server/src/jobs/gc.rs:1795-1846 | unless a wipe of it is under way or was cut, a live build pack holds exactly the objects frozen for it |
| Safety.SwapExact | server/src/jobs/gc.rs:2059-2115 | in every reachable state, torn or not, a fenced swap takes no last live copy of a reachable object if and only if every reachable object copied out of a retired pack is live outside them |
| Safety.SwapSafe | server/src/jobs/gc.rs:2059-2115 | unless a wipe of the build was cut, that is so, whichever packs the subset test retires |
| Safety.FlagOffSweepExact | server/src/jobs/gc.rs:1925-1950 | the same if and only if for the sweep without a barrier of a chain that missed no cut push |
| Safety.FlagOffSweepSafe | server/src/jobs/gc.rs:1925-1950 | under its `refs_version` test the sweep of a chain that is not torn loses nothing reachable |
| Safety.FallbackExact | server/src/jobs/gc.rs:2120-2191 | the bounded-retry fallback, torn or not, leaves the set of live ids exactly equal if and only if every object copied out of a retired pack is live outside them |
| Safety.FallbackLossless | server/src/jobs/gc.rs:2120-2191 | so it does unless a wipe of the build was cut |
| Safety.FullSwapExact | server/src/jobs/gc.rs:2400-2410 | the same if and only if for a swap that is not lossy |
| Safety.FullSwapLossless | server/src/jobs/gc.rs:2400-2410 | so unless a wipe of the build was cut it loses nothing, which is why it need not move the epoch |
| Safety.CompactExact | server/src/jobs/compact.rs:580-636 | the same if and only if for the compaction swap |
| Safety.CompactLossless | server/src/jobs/compact.rs:580-636 | so it loses nothing unless a wipe of its build was cut |
| Safety.WipeLossless | server/src/jobs/gc.rs:277-326 | so does either wipe, in any phase and any state of a retirement, torn or not: it drops the build pack's rows only while the cohort still holds everything in them |
| Safety.StepSafe | server/src/jobs/gc.rs:1848-1923 | no write except giving back a promotion takes the last live copy of a reachable object, unless a torn chain retires packs |
| Runs.SettledSafe | server/src/repo_do/mod.rs:1829-1848 | giving back a promotion included: what is reachable and live once promotions under way are given back stays so |
| Runs.NothingReachableLost | server/src/jobs/gc.rs:2195-2298 | both in every run, through every cut, stop and resumption; the one exception is a retirement by a chain that is torn at that moment |
| Losses.RetirementExact | server/src/jobs/gc.rs:2195-2298 | in every reachable state, torn or not, each of the four retirements keeps a reachable object if and only if its copies out of the retired packs are live outside them and, where a flag-off chain missed a cut push, it was marked or outside the cohort |
| Losses.LostExactly | server/src/jobs/gc.rs:2195-2298 | so in every run a write other than giving back a promotion takes the last live copy of a reachable object if and only if it is a retirement that does not provide for it |
| Losses.BuildPackHolds | server/src/jobs/gc.rs:1780-1792 | in every run the build pack holds exactly what was posted since its rows were last deleted: nothing else writes or takes them |
| Losses.TornRetirement | server/src/jobs/gc.rs:2120-2191 | after a cut wipe, with any pushes, drains and resumed batches between, a swap, fallback, flag-off sweep or compaction leaves live exactly what was posted again to a build pack that is live and what is live in neither it nor the retired packs |
| Losses.TornLossless | server/src/jobs/compact.rs:317-330 | so the retirements that move no epoch are lossless after a cut wipe if and only if everything copied was posted again or is live apart |
| Safety.PromotionUndone | server/src/repo_do/mod.rs:1829-1848 | demotion restores exactly the tables the promotion found |
| Safety.RetirementValidated | server/src/jobs/gc.rs:2195-2298 | under a barrier chain a live cohort pack dies only in a span that validated it in that very state, recorded its intent, and moved the epoch if anything is lost |
| Runs.RetireNeverMixed | server/src/jobs/gc.rs:2237-2285 | in every run the packs of a recorded intent are all live or all dead, so the resumption can tell which write was the last |
| Runs.EpochGrows | server/src/jobs/gc.rs:2195-2204 | between committed spans of one epoch the set of live ids only grows, unless in between a chain whose build wipe was cut retires packs without moving the epoch |
| Runs.VerifiedLinksLive | server/src/repo_do/mod.rs:1752-1759 | under the same condition a link a push looked up is still live when the push commits at its begin-time epoch |
| Runs.EpochOrder | server/src/jobs/gc.rs:1929-1932 | the epoch never goes back |
| Generations.SnapshotFinished | server/src/jobs/gc.rs:601-613 | with no generation-0 row left, everything reachable from the snapshot roots through the snapshot's live objects is seen |
| Runs.ZeroGone | server/src/jobs/gc.rs:240-270 | once no generation-0 row is left, no write of the chain adds one |
| Runs.ZeroGoneForever | server/src/jobs/gc.rs:240-270 | nor does any run, for as long as the chain stands |
| Runs.HandoffComplete | server/src/jobs/gc.rs:790-799 | in every run, at the hand-over to the build every object reachable from the snapshot roots is marked or has a live copy outside the cohort |
| Integrity.CollectionIntact | server/src/jobs/gc.rs:1848-1923 | a write that lands no ref keeps everything the refs link to live |
| Integrity.LandingIntact | server/src/repo_do/mod.rs:2051-2088 | a barrier landing keeps it so if and only if all its targets link to is live |
| Integrity.PlainLandingIntact | server/src/repo_do/mod.rs:1849-1865 | the same for a push while no barrier stands |
| Integrity.RunIntact | server/src/testhooks.rs:1497-1593 | a repository that starts intact and lands on closed targets stays intact in every run in which no torn chain retires packs |
| Cuts.WipeCutExact | server/src/jobs/gc.rs:277-326 | a wipe cut between its writes leaves the invariant of an untorn chain if and only if the chain no longer trusts the build pack |
| Cuts.DeadPackUntrusted | server/src/jobs/gc.rs:313-318 | once the pack is marked dead a cut is harmless, except under a flag-off sweep on the same version |
| Cuts.DeadPackRefused | server/src/jobs/gc.rs:2064-2081 | a chain whose build pack is dead or gone can neither swap nor fall back, nor can the pack go live |
| Cuts.HalfWipeRetired | server/src/jobs/gc.rs:2059-2191 | after a wipe cut behind its row delete, and perhaps a drain, the swap, the fallback and the flag-off sweep keep exactly the objects with a live copy outside the retired packs and the build pack |
| Cuts.HalfWipeSwept | server/src/jobs/gc.rs:1925-1950 | so does the sweep without a barrier, also when the pack was marked dead |
| Cuts.HalfWipeResumed | server/src/jobs/gc.rs:1780-1792 | after a cut `wipe_build` whose build is resumed, published and perhaps drained, the three keep exactly what was posted again and what had a live copy outside the retired packs; anything else it was to copy had been claimed |
| Cuts.HalfWipeCompacted | server/src/jobs/compact.rs:580-636 | the same for a compaction, which moves no epoch |
| Cuts.HalfPushSwept | server/src/repo_do/mod.rs:1849-1865 | after a push cut between a ref write and the version bump the sweep without a barrier keeps exactly the objects the mark had made safe |
| Cuts.HalfPushHarmless | server/src/repo_do/mod.rs:1849-1865 | that loses nothing reachable if and only if the new target and peeled target, where live, were marked or had a copy outside the cohort |
| Cuts.HalfPromotedSwept | server/src/repo_do/mod.rs:1788-1803 | after one cut behind its promotion, those and the objects of its pack |
| Cuts.HalfPromotedHarmless | server/src/repo_do/mod.rs:1788-1803 | that loses nothing reachable if and only if every live object the pack links to came with it, was marked or had a copy outside the cohort |
| TornRun.ReachableLoss | server/src/jobs/gc.rs:277-326 | a run from a repository at rest reaches a published sweep with the invariant holding, and, cut in a wipe, a state in which a ref names an object with no live copy |
| TornRun.WholeCollection | server/src/jobs/gc.rs:1848-1923 | left alone, the same run ends its chain with the unnamed object gone and the referenced one live |
| Precision.StepPrecise | server/src/jobs/gc.rs:755-822 | every write of a mark's chain marks, expands and queues only what is reachable through live objects from given roots, a push's targets or a page |
| Precision.MarkPrecise | server/src/jobs/gc.rs:460-485 | in every run each bit, expanded id and frontier row of a chain is of an object reachable, through objects live in the meantime, from what the tables just before the mark named as a root (ref, peeled target, pin, non-blob of a live pack outside the cohort), from a target a push fed, or from a non-blob of a pending pack |
| Precision.GarbageCollected | server/src/jobs/gc.rs:2195-2298 | so what survives a retirement is that, or still has a live copy apart from the build pack |
| Precision.UnreachableDies | server/src/jobs/gc.rs:2059-2115 | an object reachable from none of these, and live only in the build pack and in cohort packs that go (all of them without a barrier, in a swap those whose marks were all copied), is dead after the sweep |
| Drain.DropDead | server/src/jobs/gc.rs:887-977 | pending rows of packs that are gone or not live are dropped, and nothing else |
| Drain.BurstQuiet | server/src/repo_do/mod.rs:1929-1940 | a run of pushes under a barrier changes live rows, pending rows or the frontier only with a version bump, unless a push is cut between a protection and its bump |
| Drain.PageEnd | server/src/jobs/gc.rs:887-977 | where a page ends: at the last of exactly as many non-blobs as a page takes, or at the end of a window that holds fewer |
| Drain.PageOnce | server/src/jobs/gc.rs:887-977 | one page of one pack, as a run of writes: the cursor advances or the row goes |
| Drain.PageShrinks | server/src/jobs/gc.rs:887-977 | a page leaves fewer positions or fewer rows |
| Drain.CommitHits | server/src/jobs/gc.rs:755-822 | a batch's commit, as a run of writes: what is seen, queued and dropped |
| Drain.WalkOnce | server/src/jobs/gc.rs:582-752 | unless a push moved `refs_version` meanwhile or was cut early, a walk step leaves fewer unseen objects or a smaller frontier |
| Drain.Iterate | server/src/jobs/gc.rs:1897-1919 | so does one iteration of the drain, lexicographically |
| Drain.DrainLoop | server/src/jobs/gc.rs:2008-2054 | the drain ends under every schedule of pushes and slice budgets with finitely many early cuts, by a run of writes; it swaps if and only if both queues are empty; a try is paid for by a move of `refs_version` and a slice by a turn out of budget, so a drain that sees neither to its limit swaps |
| Bitmaps.SetBit | server/src/jobs/gc.rs:329-337 | sets exactly one entry's bit in place, or refuses an index past the end and changes nothing |
| Bitmaps.IdxsFrom | server/src/jobs/gc.rs:339-348 | the first marked entries from an index on, in order and without gaps |
| Bitmaps.Popcount | server/src/jobs/gc.rs:350-354 | the number of marked entries |
| Bitmaps.Subset | server/src/jobs/gc.rs:2390-2399 | the byte loop decides set inclusion, bytes missing from `built` counting as unbuilt |
| Bitmaps.Lossy | server/src/jobs/gc.rs:2400-2410 | the masked count falls short exactly when some entry below the pack's count was not copied |
| Bitmaps.AllSet | server/src/jobs/gc.rs:2412-2421 | every listed index is set; one past 32 bits never is |
| Bitmaps.SwapChoice | server/src/jobs/gc.rs:2059-2115 | the loop over the cohort rows computes exactly the protocol's retirable packs and whether retiring them loses entries |
| Bitmaps.FallbackChoice | server/src/jobs/gc.rs:2120-2191 | the fallback's loop computes exactly the protocol's retirable packs, and retires them exactly when they free as many bytes as the build pack takes |
| Dedup.FirstSeen | server/src/jobs/compact.rs:520-555 | in one pack exactly the entries of objects not met before are set |
| Dedup.DedupBitmaps | server/src/jobs/compact.rs:520-555 | every object of the cohort is marked in exactly one copy, also in what is stored after each insert, and no index is past its bitmap |
| Dedup.StakeChain | server/src/jobs/compact.rs:557-578 | staking a compaction is a run of the model's writes, one per inserted row, and ends with exactly the cohort marked |
| Hashing.ChOr | server/src/store/mod.rs:1300-1308 | SHA-1's choice expression, with an or for the standard's exclusive or, is the standard's Ch |
| Hashing.MajOr | server/src/store/mod.rs:1292-1318 | the code's majority expression is the standard's Maj |
| Hashing.Schedule1 | server/src/store/mod.rs:1292-1299 | the in-place schedule loop fills 80 words with the standard's W |
| Hashing.Round1 | server/src/store/mod.rs:1300-1315 | a round in the code's array form is the standard's round |
| Hashing.Block1 | server/src/store/mod.rs:1292-1318 | the SHA-1 block function is the standard's compression function |
| Hashing.Schedule256 | server/src/store/mod.rs:1381-1389 | the in-place schedule loop fills 64 words with the standard's W |
| Hashing.Round256 | server/src/store/mod.rs:1390-1402 | a round in the code's array form and addition order is the standard's round |
| Hashing.Block256 | server/src/store/mod.rs:1368-1406 | the SHA-256 block function is the standard's compression function |
| Hashing.CkptHash.constructor | server/src/store/mod.rs:1432-1437 | a new hasher has absorbed nothing |
| Hashing.CkptHash.Restore | server/src/store/mod.rs:1264-1270 | a saved state restores exactly |
| Hashing.CkptHash.Update | server/src/store/mod.rs:1277-1290 | absorbs the bytes after whatever was absorbed before, in whatever pieces |
| Hashing.CkptHash.Stuff | server/src/store/mod.rs:1320-1330 | the padding loop ends, after exactly the standard's zero bytes |
| Hashing.CkptHash.Fin | server/src/store/mod.rs:1320-1338 | the result is the digest of everything absorbed |
| Hashing.HashSlices | server/src/store/mod.rs:1264-1450 | hashing in slices with saved and restored state is one-shot SHA-1 or SHA-256 of the concatenation |
| PackWriting.PackWriter.Create | server/src/store/mod.rs:505-548 | a new writer holds the header, in which a reader finds the letters, version 2 and the expected count, and has uploaded nothing |
| PackWriting.PackWriter.Resume | server/src/store/mod.rs:784-834 | a resumed writer holds exactly the uploaded prefix, or that header when nothing was uploaded |
| PackWriting.PackWriter.ResumeTail | server/src/store/mod.rs:581-591 | the saved tail replaces what is buffered; count and commit bounds take in the entries it completed |
| PackWriting.PackWriter.RawExtend | server/src/store/mod.rs:595-600 | appends a fragment |
| PackWriting.PackWriter.RawEntryDone | server/src/store/mod.rs:601-610 | seals an entry: its length is what was appended since its start, and a commit moves the bounds |
| PackWriting.PackWriter.AppendStored | server/src/store/mod.rs:702-718 | appends an entry, which starts at the old offset; a commit moves the bounds |
| PackWriting.PackWriter.Checkpoint | server/src/store/mod.rs:722-752 | uploads one full part and hashes it; the contents do not change and parts stay uniform |
| PackWriting.PackWriter.Finish | server/src/store/mod.rs:642-688 | the pack is the contents and their digest, and there is one exactly when all expected entries are in; the bounds are the writer's |
| Building.EntryAt | server/src/jobs/gc.rs:1220-1490 | the straight copy holds entry k's bytes at its row's offset |
| Building.TailCount | server/src/jobs/gc.rs:1132-1207 | the rows that end inside a saved tail are as many as the entries that completed in it |
| Building.BoundsNext | server/src/store/mod.rs:601-610 | commit bounds that already know of later entries stay right when those entries are replayed |
| Building.CommitSpan | server/src/jobs/gc.rs:1168-1190 | the least start and greatest end of the commits whose rows end inside a tail |
| Building.BoundsTail | server/src/store/mod.rs:581-591 | folding those in brings the bounds to the scan cursor |
| Slices.FindSpan | server/src/jobs/gc.rs:1499-1626 | finds the span a boundary falls in, or there is none |
| Slices.SpanHit | server/src/jobs/gc.rs:1499-1626 | a boundary inside the spanned entries lies in one of their spans |
| Slices.Seek | server/src/jobs/gc.rs:1220-1490 | moves the cursor to the next entry and nothing else |
| Slices.Fragment | server/src/jobs/gc.rs:1220-1490 | streams a bounded fragment and stays on the straight copy |
| Slices.Seal | server/src/jobs/gc.rs:1220-1490 | seals a streamed entry: its row is exact and its span kept |
| Slices.Append | server/src/jobs/gc.rs:1220-1490 | copies a small entry whole, with the same effect |
| Slices.Upload | server/src/jobs/gc.rs:1499-1626 | uploads every full part; only the durable boundary moves |
| Slices.Locate | server/src/jobs/gc.rs:1499-1626 | names the entry a boundary falls in, unless nothing drained since the slice was loaded |
| Slices.Mark | server/src/jobs/gc.rs:1499-1626 | the position to persist is found for every boundary, and replays from exactly that byte |
| Slices.Flush | server/src/jobs/gc.rs:1499-1626 | a mid-slice checkpoint never fails and leaves a state to resume from |
| Slices.Yield | server/src/jobs/gc.rs:1499-1626 | so does a yield, with the buffered tail |
| Slices.CheckpointCut | server/src/jobs/gc.rs:1538-1614 | of the writes of a checkpoint, a cut before the position leaves a state to resume from if and only if no part row was written or there was no earlier checkpoint |
| Slices.Reopen | server/src/jobs/gc.rs:1132-1207 | the writer is rebound at the scan cursor when the tail is whole, at the durable boundary when it is not |
| Slices.Load | server/src/jobs/gc.rs:1132-1207 | a slice starts on the straight copy from any saved state |
| Slices.BuildSlice | server/src/jobs/gc.rs:1220-1490 | one slice, killed or yielding anywhere, ends in a resumable state or the finished pack |
| Slices.BuildSlices | server/src/jobs/gc.rs:1132-1207 | so do slices in turn, each of which may lose the tail saved before it |
| Candidates.NextBatch | server/src/jobs/gc.rs:1263-1310 | moves to the next candidate with marked entries and plans a gapless batch of them |
| Candidates.Scan | server/src/jobs/gc.rs:1263-1330 | the entries scanned are exactly the marked entries in (pack, idx) order, each once; refused exactly when one has no row |
| Candidates.Total | server/src/jobs/gc.rs:1712-1723 | the announced count is the number of entries scanned |
| Candidates.Build | server/src/jobs/gc.rs:1026-1490 | whatever the yields, kills and lost tails, a build fails exactly when a marked entry has no row and finishes in a slice nothing disturbs; a reader of the finished pack finds the letters, version 2 and the number of entries, each marked entry in (pack, idx) order at its row's place right behind the one before, and behind the last the digest of all that; the bounds of the commits are exact |
| Candidates.IndexedIsBuilt | server/src/jobs/gc.rs:1795-1846 | the finished index names exactly the objects frozen for the build |
| Candidates.PostedIsExact | server/src/jobs/gc.rs:1795-1846 | so, posted, it makes the build pack exact in the protocol's sense |
| Candidates.DedupIsDistinct | server/src/jobs/compact.rs:520-555 | a compaction's marks name each object once |
| Candidates.CompactionIsExact | server/src/jobs/compact.rs:580-636 | and its output holds exactly the objects of the cohort |
| WakeQueue.WalkRoot | server/src/pack/ingest.rs:733-794 | an attempt waits exactly when the id at the end of its offset chain is unknown |
| WakeQueue.Unique | server/src/pack/ingest.rs:700-731 | an entry resolves to at most one object |
| WakeQueue.Exhausted | server/src/pack/ingest.rs:853-877 | when nothing is left to try, every entry in the least fixpoint has been emitted |
| WakeQueue.TurnKeeps | server/src/pack/ingest.rs:853-877 | every turn keeps each entry emitted, queued once, or parked on its root's id: no wake-up is lost |
| WakeQueue.OneEntry | server/src/pack/ingest.rs:892-990 | an entry is emitted and wakes its waiters, or is parked |
| WakeQueue.Drain | server/src/pack/ingest.rs:853-877 | the loop ends with an empty queue, or at a broken chain |
| WakeQueue.Resolve | server/src/pack/ingest.rs:799-890 | emits each entry once and after the object its root names, and fails, by a missing base or a broken chain, exactly when some entry is not resolvable |
| WakeOrder.ReadyIffEarly | server/src/pack/ingest.rs:853-877 | an entry resolves at its own turn if and only if its root is a full object, external, or an earlier such entry |
| WakeOrder.OffsetBaseFirst | server/src/pack/ingest.rs:853-877 | an offset delta's base is emitted first if and only if the base is such an entry or the delta is not |
| WakeOrder.Overtaken | server/src/pack/ingest.rs:853-877 | a pack in which the delta comes first |
| Leases.StepFence | server/src/jobs/mod.rs:409-457 | only its own claim makes a token pass the lease check |
| Leases.FencedForever | server/src/jobs/mod.rs:136-155 | a token that fails the check after its claim never passes again |
| Leases.HolderClaimed | server/src/jobs/mod.rs:409-457 | a token that passes was claimed for that row |
| Leases.LandsOnce | server/src/jobs/mod.rs:476-588 | a claim lands at most one outcome |
| Leases.DeathBound | server/src/jobs/mod.rs:476-588 | in every history attempts are errors plus boot requeues; a live row has fewer than 8 errors, and a dead one that was never requeued has 8, or 64 strandings without a completed slice |
| Leases.DeadExactly | server/src/jobs/mod.rs:203-221 | in every history a row is dead if and only if some error brought its errors and boot requeues to 8, or some repair found it stale after 64 strandings without a completed slice |
| Leases.EightErrors | server/src/jobs/mod.rs:476-588 | dying of exactly 8 errors is kept at an error if and only if it is the eighth or boots do not bring the attempts to 8 before |
| Leases.HeardExactly | server/src/jobs/mod.rs:115-133 | in every history a running row's stamp is the time of the last claim or heartbeat that passed |
| Leases.RepairIff | server/src/jobs/mod.rs:203-221 | a repair leaves a running row as it is if and only if it was heard of within the last minute |
| Leases.HeardSurvives | server/src/jobs/mod.rs:115-133 | a slice heard of holds its lease through every boot of the next minute, whatever else happens |
| Leases.BackoffDoubles | server/src/jobs/mod.rs:476-588 | retries wait a minute, then twice as long each time, at most an hour |
| Leases.EnqueueOnce | server/src/jobs/mod.rs:168-176 | asking for a job queues a row of the kind exactly when none is queued, and touches no other |
| Leases.ResurrectExactly | server/src/jobs/mod.rs:203-330 | a resurrection leaves no dead row of the kind, one queued, and all others alone |
| Leases.DeadForever | server/src/jobs/mod.rs:203-221 | a dead row stays dead as long as it is in the table |
| Leases.PurgeDiesEarly | server/src/repo_do/mod.rs:770-776 | seven boots of a deleted repository and one error kill its purge |
| Leases.JobTable.Dispatch | server/src/jobs/mod.rs:409-457 | a claim succeeds exactly on a queued row, and then holds and stamps it |
| Leases.JobTable.Heartbeat | server/src/jobs/mod.rs:115-133 | answers whether the lease is held, and then moves the row's stamp and nothing else |
| Leases.JobTable.LandOutcome | server/src/jobs/mod.rs:476-588 | lands exactly under a held lease and gives it up; the row is gone, queued for now or for the moment asked, queued after its backoff, or dead at the eighth attempt, and no other row changes |
| Leases.JobTable.RepairStranded | server/src/jobs/mod.rs:203-221 | exactly the leases heard of recently survive a boot |
| Leases.JobTable.RebootPurge | server/src/repo_do/mod.rs:770-776 | a boot of a deleted repository leaves a purge that is not dead, and every other row as it was |
| Fetch.SplitParents | server/src/pack/generate.rs:244-340 | parents to walk and parents the client has |
| Fetch.VisitCommit | server/src/pack/generate.rs:244-340 | one commit: a wall whose tree is a base, or sent with its tree, its parents queued or made edges, and nothing else |
| Fetch.WalkCommits | server/src/pack/generate.rs:244-340 | the level-by-level walk meets exactly the commits visited, and is refused only for too many of them or for one without a live row |
| Fetch.BaseEntries | server/src/pack/generate.rs:570-607 | the ids and directory names of the bases, exactly |
| Fetch.TakeEntry | server/src/pack/generate.rs:570-607 | an entry is skipped exactly if it is a gitlink, in a base or taken up already; a subtree is compared with a directory of its name whenever a base has one |
| Fetch.ExpandTree | server/src/pack/generate.rs:570-607 | exactly the entries that are not gitlinks and in no base are taken up; refused only by the limit |
| Fetch.WalkTrees | server/src/pack/generate.rs:389-419 | the tree walk ends and expands every root, marks only live objects below the roots, and is refused only for one that is not live or for too many |
| Fetch.Peel | server/src/pack/generate.rs:164-182 | follows every tag to its object without marking the tags between; a blob that is not live is skipped, a tag that is not live refuses the fetch |
| Fetch.PickBases | server/src/pack/generate.rs:374-388 | the bases are trees of commits the client has: all of walls and edges up to 64, and some whenever there are any |
| Fetch.SettledClosure | server/src/pack/generate.rs:389-419 | all that is reachable from an accounted object is accounted for or the client's |
| Fetch.SentComplete | server/src/pack/generate.rs:244-340 | the closure of a sent commit is marked or lies in the closure of what the client has |
| Fetch.WantComplete | server/src/pack/generate.rs:164-182 | a wanted object arrives whole if and only if every unwanted tag and every blob without a live row in its closure is the client's |
| Fetch.NestedTagIncomplete | server/src/pack/generate.rs:164-182 | a tag of a tag, wanted alone, does not |
| Fetch.NotRefused | server/src/pack/generate.rs:119-445 | a fetch that is answered had no want, tag or commit to read without a live row, nothing else the client lacks, and passed no limit |
| FetchGraph.CloneRefused | server/src/pack/generate.rs:119-445 | for a client with nothing, what may be refused and what must be are the same |
| Fetch.SendSet | server/src/pack/generate.rs:119-445 | of the whole selection: refused only for something to read that is not live or a limit passed, said over the graph alone, and for a clone exactly then; sent are exactly the commits reached without passing one the client has, and the wanted ones; everything marked is live and reachable from a want; a sent commit arrives whole, a want exactly as above |
| Replan.SendSet.Mark | server/src/pack/generate.rs:59-118 | a mark is recorded and set in its pack's bitmap; a pack that is no longer live makes the set stale, or is refused on the path that does not record |
| Replan.Stands | server/src/pack/generate.rs:612-660 | the announced counts match if and only if every mark still has its row, in a pack of any state |
| Replan.Rebuild | server/src/pack/generate.rs:696-719 | the rebuilt bitmaps mark exactly where each recorded object is found now; refused exactly when one is gone |
| Replan.Settle | server/src/pack/generate.rs:612-719 | after at most one rebuild the plan serves exactly the recorded objects; refused exactly when the old plan does not stand and an object is gone |
| Replan.RunPlaced | server/src/store/mod.rs:1043-1060 | in every run a row names what its pack holds at that index, through replays, drops and rebuilds |
| Replan.RunImmutable | server/src/store/mod.rs:1043-1060 | so a place an object had in some state is no other object's in any |
| Replan.MarksStayLive | server/src/pack/generate.rs:696-719 | what a fetch met live at any time of an epoch is live at the end of it, under the condition of `Runs.EpochGrows` |
| Replan.SettleInEpoch | server/src/pack/generate.rs:612-719 | so in any such run the plan is served, and serves exactly the recorded objects, however packs were compacted under it |
| Reads.Coalesce | server/src/pack/generate.rs:721-762 | the reads serve exactly the entries' bytes in order, each within a window; inside a read less than the gap is skipped at a time, and no two neighbouring reads could have been one |
| Reads.Fragments | server/src/pack/generate.rs:721-762 | an entry larger than a window is read piece by piece |
| Reads.TwoReadsAWindow | server/src/pack/generate.rs:721-762 | with the wide gap two reads on is a window on |
| Reads.ReadBound | server/src/pack/generate.rs:612-660 | so there are at most two reads per window of the pack |
| Reads.PlanPack | server/src/pack/generate.rs:612-660 | the announced count is the number of marks, refused unless the index has as many entries; the narrow plan is used unless it has more reads than the pack has windows |
| Refs.FastForwardTruth | server/src/repo_do/mod.rs:1098-1118 | the bounded walk says yes or no only when that is the truth in the recorded graph, and answers neither only when an ancestor of the tip is not recorded or the tip has as many ancestors as the budget |
| Refs.FastForwardAnswers | server/src/repo_do/mod.rs:1098-1118 | in a recorded history smaller than the budget it always answers, and rightly |
| Refs.LogSnoc | server/src/repo_do/mod.rs:2028-2114 | a landed command and its log row keep the log replaying to the table, each row's old value the one before |
| Refs.LogCut | server/src/repo_do/mod.rs:2070-2107 | a landing cut before its log row leaves the log right at every other ref, and at its own only if it had that value; the next logged landing of the ref mends it |
| Refs.VerdictIff | server/src/repo_do/mod.rs:1981-2056 | a command passes if and only if it meets eleven rules (name, scope, some value, pin, current branch, three for protected refs, live target, room, compare-and-swap), and is otherwise refused for the first it breaks |
| Refs.PushLawful | server/src/repo_do/mod.rs:1981-2114 | every ref a push changes has a valid name in scope, is not pinned, names a live object or is gone and was neither the current branch nor protected, and if protected moved to a descendant; the table stays within its limit |
| Refs.LandsIff | server/src/repo_do/mod.rs:1981-2114 | after commands that landed, the next lands if and only if none moved its ref and a create has room |
| Refs.AtomicIff | server/src/repo_do/mod.rs:1814-1825 | after a dry run that passes, all commands land if and only if all are unhindered |
| Refs.DistinctIsAtomic | server/src/repo_do/mod.rs:1814-1856 | with distinct names and room, an atomic push applies all commands or none |
| Refs.RepeatedCreate | server/src/repo_do/mod.rs:1814-1825 | creating one ref twice passes the dry run and lands once |
| Refs.ProtectedStep | server/src/repo_do/mod.rs:466-478 | a landed command moves a protected ref only to a descendant |
| Refs.ProtectedPush | server/src/repo_do/mod.rs:2016-2027 | so does a push |
| Refs.ProtectedForever | server/src/repo_do/mod.rs:2016-2027 | over any pushes, while it stays protected a ref is never deleted and every earlier target is an ancestor |
| Refs.RefStore.ApplyOne | server/src/repo_do/mod.rs:1981-2114 | lands exactly when it meets the rules at this state, and then table and log move together |
| Refs.RefStore.TryAll | server/src/repo_do/mod.rs:1814-1825 | the dry run judges every command by the rules against the table as it is |
| Refs.RefStore.ApplyAll | server/src/repo_do/mod.rs:1849-1856 | the commands in turn, each seeing what the ones before wrote |
| Refs.RefStore.CommitPush | server/src/repo_do/mod.rs:1814-1856 | an atomic push commits exactly when every command meets the rules, and otherwise writes nothing and fails every command; whatever lands changes refs lawfully; a command alone lands exactly when it meets the rules |
| Cohorts.Tier | server/src/jobs/compact.rs:57-65 | a pack's size tier |
| Cohorts.AgesByTier | server/src/jobs/compact.rs:124-147 | the age-times of the fit packs of each tier |
| Cohorts.SteadyIff | server/src/jobs/compact.rs:67-79 | the saturating age test of selection and the saturating due time of the wake agree on a pack at a moment if and only if the stated condition on the ends of the range holds |
| Cohorts.NextWake | server/src/jobs/compact.rs:124-147 | the wake is due at a moment exactly when some tier has the fan-in of packs that are small, not quarantined and whose due time has come, and exactly when a tier is ripe if the two age tests agree on every fit pack |
| Cohorts.SelectCohort | server/src/jobs/compact.rs:81-122 | there is a cohort exactly when some tier has the fan-in of packs that are small, not quarantined and old enough; it is 2 to 2T such packs of the fullest tier, none left there older than one taken, as many as the budgets allow |
| Cohorts.SaturationDisagrees | server/src/jobs/compact.rs:81-147 | at the end of the range `next_wake` answers a moment at which `select_cohort` finds no cohort |

## Left out

- Steps: the `gc.*` keys of a chain are one record, so a stop among the four keys that stake a compaction counts as before its start; job rows, `gc.swap` counters and `gc_last_swap` are not in the state; a rebuilt row posted to a build pack that is already live counts as absorbed.
- Runs.NothingReachableLost: what a torn chain's retirement keeps is stated by `Losses.LostExactly`, not here; so for Safety.StepSafe, Runs.SettledSafe and Integrity.RunIntact.
- Runs.EpochGrows: what a retirement that moves no epoch loses after a cut wipe is stated by `Losses.TornLossless`.
- Drain.DrainLoop: the slice budget is a schedule, not milliseconds; with infinitely many pushes cut early only the slice limit ends the drain.
- Slices.Flush: a checkpoint is one step; `Slices.CheckpointCut` says which of its cuts leave a state to resume from, and what the writer does with part rows past its position is not modelled.
- Slices.Yield: the same.
- Candidates.Build: everything is scanned before anything is copied, so a missing row fails at once where the source may yield first; R2 errors, the expiry of an upload, the recovery by HEAD and the rebuild that follow; the part size is constant and the marked entries of a build have distinct ids, as the source assumes.
- WakeQueue.Resolve: zlib, delta application, size and depth limits, and the caches; a base found by id that is an emitted entry is that entry's object.
- Fetch.SendSet: memory and subrequest budgets, and which 64 bases are kept; shallow and deepen, filters, include-tag and the no-walk shortcut; tree and commit parsing is the graph.
- Refs.RefStore.ApplyOne: the ref and its log row are one step; what an error between the two statements leaves is stated by `Refs.LogCut`.
- Refs.RefStore.CommitPush: token scopes, name syntax, quotas and events are parameters or absent; ref log expiry is not modelled.
- Leases.DeathBound: which queued row is picked next, and the dead-row gauge.
- Cohorts.SelectCohort: row and byte sums are unbounded integers; quarantine storage is a set.
- The rest of the index (`entries_of`, `insert_objects`, migrations), import, the janitor beyond reaping abandoned packs, LFS, bundles, signing, webhooks, HTTP, authentication: I/O or easy members.

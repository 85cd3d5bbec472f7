# Verified model of the data-exchange service

The data-exchange service moves messages and files between agents over
reliable byte streams. This project models the parts of it whose correctness
depends on interleaving, mutable state or byte layouts, and proves what they
are meant to guarantee. Each module follows one component.

- **File streams, many receivers** (`Receivers`, `Custody`, `Ownership`,
  `Registration`, `Safety`, `Handover`, `Finish`, `Refusal`, `Orphans`,
  `Contents`, `Origins`, `Outcomes`, `Keeping`, `Endings`, `ClaimTable`): any
  number of
  stream receivers share one disk, one claim table and one clock. INIT is cut
  into check / claim / open-and-register, DONE into check / hash reads /
  prepare / re-check-and-rename / commit, so that other receivers act in
  between. Writes may tear. A directory entry names an inode and an open handle
  is an inode, so a superseded transfer may still hold a file that was renamed.
  `Outcomes` and `Endings` put the steps of a handler together again: what a
  whole INIT, CHUNK or DONE comes to, and how the next INIT takes up what was
  left. `ClaimTable` is the table itself, a class updated in place, against the
  world's claims.
- **One transfer** (`Reassembly`, `Admission`): out-of-order chunk reassembly as
  a class with the source's drain loop, proved against the function `Chunk`; the
  admission arithmetic of INIT.
- **Sender and receiver** (`Session`, `Window`, `Progress`): the sender's window
  gate, its reader goroutine with `acked` and the one-slot `notify` channel, and
  the receiver, over two FIFO channels.
- **Inbox byte budget** (`InboxSpec`, `InboxRuns`, `InboxCap`, `Inbox`): a running total
  that stands in for a directory scan, as a class with its loops, every
  interleaving of reserve, write, settle, eviction and foreign deletion, and
  exactly when the cap can be exceeded.
- **Duplicate suppression** (`DedupeSpec`, `Dedupe`, `DeliveryKey`): the
  compacting queue and its map as a class that refines an abstract FIFO, and the
  histories of that FIFO.
- **Frames** (`Wire`, `Frames`, `Utf8`, `FrameLaws`, `FileNames`, `HeaderScan`,
  `FrameIO`, `StreamCodec`, `TraceCodec`, `Layout`): printers and parsers as functions, the forms that fill buffers
  and advance streams as methods.
- **Send with fallback** (`Names`, `Service`, `Answers`, `Send`, `Resend`): what a
  service of each generation does with a frame, its duplicate caches included,
  what its answer tells the client, and the two-party exchange over real frame
  bytes.

What the proofs assume of the outside:

- A holder acts within `staleClaimAfter` of refreshing its claim, as the source
  states at filestream.go:556-558. A step that begins with `stillHolds`
  therefore includes the action the check guards, and registering a freshly
  claimed file happens while that claim is live.
- A receiver handles one frame at a time, as its connection loop does, and
  `Close` is one `Drop` per transfer. Random private suffixes and final names
  are fresh.
- SHA-256 is an arbitrary function. Only the duplicate caches of the service
  (`Service.CacheOk`) need two deliveries never to share a key.
- `json.Unmarshal` is a parameter of which one law is asked: it reads back the
  headers the printer prints. `HeaderScan` has a scanner that does
  (`HeaderScan.ScanReadsBack`).
- Integers are unbounded where the source's width cannot matter. Where it does,
  it is explicit: the uint64 subtraction at the window gate, the 32-bit length
  field of a frame, the 64-bit length prefixes of a delivery key.

What turned out not to hold, and what is proved instead:

- A refused INIT can still cost a quiet holder its transfer
  (`Orphans.HolderCanLose` is a run of a fresh process). It does so exactly if one
  of the holder's own steps between the INIT's claim and its refusal checks the
  claim, repeats the INIT, drops the transfer or fails to prepare
  (`Refusal.RefusalOutcome`).
- A claim can stay in the table without an owner
  (`Orphans.ClaimCanBeOrphaned`). It comes about exactly when an INIT is refused
  after the transfer it took the path from has ended (`Orphans.OrphanIff`), goes
  exactly when the next INIT claims the path (`Orphans.OrphanEndsIff`), and is
  always stale (`Safety.ClaimsOneToOne`).
- A superseded transfer can still delete something: the file it has just put in
  place, exactly if its own commit fails (`Handover.SupersededIsHarmless`;
  `Orphans.SupersededCanTakeBack` is a run of a fresh process in which it does).
- A failed chunk write is charged to the quota budget all the same, so its
  retransmission can be refused (`Admission.FailedWriteCanTripQuota`), and a full
  disk ends a transfer for good (`Admission.DiskFullEnds`). An admitted transfer
  can still be completed exactly if no full disk and no takeover has ended it and
  the bytes charged to failed writes fit the slack the quota left at INIT
  (`Admission.CompletesIffSlack`).
- A failed inbox write that leaves bytes behind can take the inbox over its cap
  (`InboxRuns.FailedWriteCanExceedCap`). While nothing further goes wrong the disk
  stays within the cap exactly if settled bytes and reservations fit it and a known
  total is not below the settled bytes (`InboxCap.WithinCapIffSafe`). So a failed
  write breaks the cap exactly if what it left exceeds the total's slack
  (`InboxCap.FailedWriteExceedsIff`), and a message admitted because a listing
  failed exactly if it does not fit (`InboxCap.UncheckedExceedsIff`).
- `inboxLowWater` has an intermediate value above its argument for small caps;
  `InboxSpec.LowWaterExact` says for which, and a cap of one byte is such a one
  (`InboxSpec.LowWaterOfOne`).
- An untagged payload of 4 GiB or more is announced modulo 2^32
  (`FrameLaws.LengthWraps`), so that a text of exactly 4 GiB is read as an empty
  one (`FrameLaws.FourGiBIsMisread`); `FrameLaws.RefusedUnlessMisread` says exactly which
  frames that do not fit are read as something else instead of being refused.

## Model

| member | source | states |
|---|---|---|
| `Contents.AlwaysPrefixes` | filestream.go:718-966 | over any interleaving of INIT, CHUNK, DONE, ABORT, close, stall and takeover by any number of receivers, with torn writes: if senders of an id send slices of its one content and declare its length, every .partial stays a prefix of that content and every installed file is the whole content |
| `Contents.ReachablePrefixes` | filestream.go:718-966 | the same from a fresh process over any disk whose partials are prefixes, with the holder's cursor within its file and each installed file equal to its id's content |
| `Safety.StepInv` | filestream.go:698-1158 | every step of every handler keeps the invariant on claims, files, handles and positions inside handlers |
| `Safety.ReachableInv` | filestream.go:698-1158 | the invariant holds in every reachable world |
| `Safety.OneWriter` | filestream.go:507-609 | in any reachable world two steps that may write, truncate, rename or delete one .partial belong to one receiver, and every other step leaves its entry and bytes alone |
| `Safety.ClaimsOneToOne` | filestream.go:544-609 | two transfers never hold one path, and a claim that belongs to nobody is stale, so it never blocks a retry |
| `Safety.StepTouches` | filestream.go:893-1158 | no step changes the bytes or the entry of a .partial other than the one its claim entitles it to |
| `Safety.TouchNeedsClaim` | filestream.go:951-966 | whoever may change a .partial is the receiver the claim table names for it |
| `Handover.TakeoverNeedsStale` | filestream.go:544-554 | a holder loses its claim to another receiver only to an INIT that passed its checks, after `staleClaimAfter` without a refresh |
| `Keeping.HolderKeeps` | filestream.go:511-570 | whatever the others do, a holder keeps its claim, its transfer and its file for 120 seconds from its last refresh |
| `Keeping.ChunkRefreshes` | filestream.go:951-966 | a chunk at the cursor refreshes the claim, whatever becomes of its write |
| `Keeping.DoneRefreshes` | filestream.go:994-998 | a DONE does, whether the file syncs and is complete or not |
| `Keeping.ReadRefreshes` | filestream.go:1075-1080 | each read of the verification does |
| `Handover.RefusedAtOnce` | filestream.go:754-841 | an INIT refused right after its claim leaves all claims, all files and all other receivers as they were |
| `Handover.RefusedAtChecks` | filestream.go:718-785 | an INIT refused for capacity, quota or disk space leaves all claims, all files and all other receivers as they were |
| `Refusal.RefusedInit` | filestream.go:718-843 | an INIT handled in one go and refused anywhere (capacity, quota, disk space, its private file, the open), a repeated INIT included, leaves every claim, every file and every other receiver as it was and registers nothing |
| `Outcomes.InitOutcome` | filestream.go:718-842 | an INIT handled in one go, new or repeated, is accepted exactly if there is a slot (of 64) for it and quota and disk admit it; the transfer then has that INIT's size and digest, the budget of its admission, the shared path (its own if repeated, a private one while the shared one is held live) with the claim on it, and its cursor at the end of the bytes found there, all kept, or at 0 if they were more than the size |
| `Outcomes.LateClaim` | filestream.go:776-788 | a path claimed by a live transfer since the checks is left to it: the INIT goes on with a fresh private file and the budget of a second admission, or is refused by that |
| `Endings.NextInitResumes` | filestream.go:817-891 | once a transfer of a shared .partial has ended, the next INIT of the id that any receiver accepts goes on behind its last byte, with every byte before kept |
| `Handover.HolderGoesOn` | filestream.go:893-1000 | whoever holds its claim, however long it was quiet, writes its next chunk into the file at its path, and its DONE goes on to verification |
| `Finish.HolderFinishes` | filestream.go:985-1067 | a holder with every byte and a file of the declared digest has a run of its own steps (DONE, hash reads of any size, prepare, rename, commit, release) that installs exactly those bytes and ends the transfer |
| `Endings.DoneKeepsUnlessComplete` | filestream.go:985-1018 | a DONE goes on to verification exactly if every byte is there and the file syncs; otherwise, and when a read fails, the transfer is where it was, with its claim refreshed |
| `Endings.MismatchEnds` | filestream.go:1019-1023 | a complete file of another digest is not installed: reads of any size find out, the transfer ends, its claim is released and its shared .partial stays |
| `Endings.InstallFails` | filestream.go:1028-1055 | a failing prepare or rename ends the transfer, installs nothing and keeps the shared .partial |
| `Endings.CommitFails` | filestream.go:1056-1063 | a failing commit takes the installed file away again and ends the transfer |
| `Endings.DropEnds` | filestream.go:1084-1158 | an ABORT or a closed connection ends a transfer, frees its path, removes a private file and keeps a shared one |
| `Endings.AbandonEnds` | filestream.go:1111-1137 | a transfer that ran the disk full is over, its path free and its file gone |
| `Refusal.RefusalOutcome` | filestream.go:544-609 | after any run of anyone between an INIT's claim and its refusal, the path is the holder's claim's again and the file is as it was; the holder still has its transfer, at the same cursor, and can go on exactly if no step of its own in between checked the claim, repeated the INIT, dropped the transfer or failed to prepare; the claim is ownerless exactly if one took the transfer out of its table |
| `Orphans.HolderCanLose` | filestream.go:985-997 | a run of a fresh process in which a DONE between claim and refusal costs the holder its transfer although the INIT is refused |
| `Orphans.ClaimCanBeOrphaned` | filestream.go:579-590 | a run of a fresh process that ends in a claim without an owner |
| `Orphans.OrphanIff` | filestream.go:579-590 | a step leaves a claim without an owner exactly if it is the refusal, after its claim, of an INIT whose predecessor on the path has ended |
| `Orphans.OrphanEndsIff` | filestream.go:544-554 | such a claim is replaced exactly when an INIT for the path that passed its checks claims it |
| `Handover.SupersededIsHarmless` | filestream.go:985-1158 | whatever a transfer that lost its claim still does, a repeated INIT and a commit included, no claim, file or entry changes, exactly unless its own commit fails and its file is removed; then only that final name goes |
| `Orphans.SupersededCanTakeBack` | filestream.go:1032-1067 | a run of a fresh process in which a transfer renames its file, goes quiet, loses its claim to a retry and then removes the installed file because its commit fails |
| `Handover.RenameInstallsVerified` | filestream.go:1032-1055 | the bytes renamed into place are exactly those hashed, they are the whole file, match the digest of the transfer (an INIT's: `Origins.AllFromInits`), and the cursor is at the declared size; a transfer that lost its claim renames nothing |
| `Origins.AllFromInits` | filestream.go:718-1067 | over any run of a process, each transfer has the size and the digest that some INIT of its id declared to its receiver, and each installed file is there with bytes whose digest, and at least as many as the size, that some INIT of its id declared |
| `Origins.HoldsBounded` | filestream.go:676-966 | in any reachable world a receiver has at most 64 transfers, each with its cursor within its size and at most 768 KiB buffered, all of it within the size |
| `Handover.InstalledStays` | filestream.go:985-1067 | an installed file keeps its verified bytes over every later run, although superseded transfers may hold it open |
| `ClaimTable.ActivePartials.PartialHeld` | filestream.go:534-539 | held exactly when the world has a live claim on the path |
| `ClaimTable.ActivePartials.ClaimPartial` | filestream.go:544-554 | refuses exactly a path held live; otherwise the table becomes the world's with one fresh claim, and the claim taken over is returned |
| `ClaimTable.ActivePartials.StillHolds` | filestream.go:559-570 | true exactly when the claim is the path's; then it is refreshed and nothing else changes |
| `ClaimTable.ActivePartials.UnclaimPartial` | filestream.go:579-590 | gives the path back to the previous claim or frees it, and only if the claim still holds it |
| `Reassembly.ChunkKeeps` | filestream.go:893-966 | any CHUNK with any fate of its writes keeps cursor ≤ size, buffered chunks inside the size, `pendBytes` equal to the buffered total and within its cap, the cursor not buffered, and the file within bounds; neither cursor nor file shrinks |
| `Reassembly.ChunkPrefix` | filestream.go:893-966 | slices of one content in any order with torn writes keep the file a prefix of it that reaches the cursor |
| `Reassembly.ChunkAnswered` | filestream.go:893-945 | a chunk is refused as out of bounds exactly if it does not end within the declared size; ahead of the cursor it is acknowledged and kept if its place is free and there is room, behind the cursor it is acknowledged and changes nothing, at the cursor it is acknowledged and the cursor passes it if its writes land and the budget pays for the rest |
| `Reassembly.ChunkFails` | filestream.go:951-983 | what a chunk at the cursor is answered when its write does not land, and what is charged and changed then |
| `Outcomes.ChunkOutcome` | filestream.go:893-966 | the steps by which a holder handles any chunk among other receivers come to exactly what `Chunk` says, on its transfer and its file, and change nothing else |
| `Outcomes.SupersededChunk` | filestream.go:951-983 | a transfer that lost its claim writes nothing of its next chunk and is discarded |
| `Reassembly.ArriveRun` | filestream.go:912-942 | with no quota or a budget that pays for the rest, pieces of a partition in any order with repeats and drops leave the cursor at the end of the longest run of kept pieces, with exactly the later kept pieces buffered and the budget still paying for the rest |
| `Reassembly.LongestRun` | filestream.go:912-942 | from a resume offset, with no quota or any budget that pays for the rest (as an admitted transfer has) and nothing dropped for room, the cursor is the start of the first piece that was not delivered |
| `Reassembly.RecvTransfer.constructor` | filestream.go:817-838 | a registered transfer starts in bounds at its resume offset |
| `Reassembly.RecvTransfer.WriteAt` | filestream.go:951-966 | the claim check, the quota debit and the (torn) write in this order, as the specification of one write |
| `Reassembly.RecvTransfer.HandleChunk` | filestream.go:893-945 | the handler with its drain loop terminates and computes the specification `Chunk` on state, file and answer (of which `Reassembly.ChunkAnswered` says when it is an ACK) |
| `Admission.ResumesWhereItEnds` | filestream.go:886-891 | the offset is the length of the .partial exactly if that is within the size, and else 0 |
| `Admission.StartsWhereItEnds` | filestream.go:817-838 | every byte of a .partial is kept exactly if it is within the size, and the transfer starts at the end of what was kept |
| `Admission.AdmitExact` | filestream.go:848-880 | the quota refuses exactly a size that does not fit beside the rest of the directory, the disk exactly missing bytes that would cut into 16 MiB, and the budget is what the quota has left |
| `Admission.AdmittedStaysInside` | filestream.go:848-880 | with no other writer since INIT, the received directory stays within its quota and the disk above its reserve at every chunk, whatever arrives and fails |
| `Admission.AdmittedNeverTripsQuota` | filestream.go:951-966 | while no write failed, the remaining budget covers what is missing and the mid-stream check never refuses |
| `Admission.CompletesIffSlack` | filestream.go:848-983 | after any chunks with any failures an admitted transfer can still be completed exactly if no full disk and no takeover ended it and there is no quota or the bytes charged to failed writes fit the slack left at INIT; while it is alive the rest of the content is refused as over quota exactly if they do not fit |
| `Admission.DiskFullEnds` | filestream.go:973-983 | a one-byte transfer without a quota that cannot be completed once its chunk met a full disk |
| `Admission.FailedWriteCanTripQuota` | filestream.go:955-963 | a one-byte transfer whose only chunk fails once is refused as over quota when it is sent again |
| `Session.OkResultMatchesDigest` | filestream.go:325-340 | whatever was on disk and whatever fails, an OK result means a file with the content's digest is stored |
| `Session.FailedChunkIsReported` | filestream.go:893-983 | in any run a chunk that does not go through is answered with a failure, or with ABORT if its transfer is no more, and the sender then never reports OK |
| `Window.OkFromPrefixStoresContent` | filestream.go:219-345 | resuming from a prefix, an OK result means the content itself is stored, whatever the digest function |
| `Window.WindowNeverExceeded` | filestream.go:295-307 | in every reachable state `offset-acked` does not underflow, at most 16 × 48 KiB are unacknowledged, a sender waits only with exactly that many, and no wakeup is lost |
| `Window.StepWakeup` | filestream.go:282-307 | if `acked` moved since the parked sender loaded it, a token is there or about to be sent |
| `Progress.NeverStuck` | filestream.go:295-307 | in a failure-free run some step is always possible until the sender has finished; a parked sender has a chunk, an ACK or a token still to come |
| `Progress.QuietRunsEndOk` | filestream.go:219-345 | failure-free runs from a prefix on disk are bounded, can always go on until finished, and finish OK with the content stored, BytesResumed the length of that prefix and BytesSent the rest |
| `InboxSpec.LowWaterExact` | inbox_budget.go:102-104 | equals floor(90·max/100), is at most max, and says when an intermediate exceeds max |
| `InboxSpec.LowWaterOfOne` | inbox_budget.go:102-104 | with a cap of one byte the mark is 0 and the intermediate value is 90 |
| `InboxSpec.EvictShortestPrefix` | inbox_budget.go:110-124 | with removals that succeed, the evicted files are the shortest prefix of the listing that brings the total to the limit |
| `InboxRuns.InboxCapHolds` | inbox_budget.go:165-228 | from the first checked reservation on, in every interleaving, settled plus in-flight bytes exceed the cap by at most what failed writes left and what was admitted unlisted, so never without those; `pending` is the sum of reservations in flight and the running total bounds the settled bytes |
| `InboxRuns.InFlightNeverEvicted` | inbox_budget.go:130-149 | no eviction path removes or changes a file still being written |
| `InboxRuns.FailedWriteCanExceedCap` | inbox_budget.go:216-228 | a run in which a failed write's leftover bytes take the inbox over its cap |
| `InboxCap.WithinCapIffSafe` | inbox_budget.go:165-228 | from any state of the budget, the disk stays within the cap over every continuation in which nothing goes wrong exactly if settled plus reserved bytes fit the cap and a known running total is not below the settled bytes |
| `InboxCap.ReachableWithinCapIff` | inbox_budget.go:165-228 | the same after any history of a service, whatever failed in it |
| `InboxCap.FailedWriteExceedsIff` | inbox_budget.go:216-228 | a failed write makes it possible for later, failure-free traffic to exceed the cap exactly if the total is known and the bytes it left exceed the total's slack over the settled bytes |
| `InboxCap.UncheckedExceedsIff` | inbox_budget.go:165-212 | a message admitted because a listing failed does so exactly if it does not fit beside what is settled and reserved |
| `InboxCap.CheckedReservationIsSafe` | inbox_budget.go:165-212 | the first reservation with a listing makes the inbox safe, whatever was on disk |
| `InboxRuns.RefusedIffTooBig` | inbox_budget.go:165-212 | with removals that succeed a message is refused exactly if it and the bytes in flight exceed the cap |
| `InboxRuns.ReserveEvictsOldest` | inbox_budget.go:165-212 | with removals that succeed a reservation evicts the oldest settled files: none unless they leave the message no room and the running total says so too, and then the fewest that bring the inbox to 90 % of the cap (or to the cap, if the message and the writes in flight are over that); the files in flight stay and the message is booked |
| `InboxRuns.UnlistedEvictsNothing` | inbox_budget.go:178-195 | when a listing fails nothing is evicted, and the message is admitted exactly if it fits beside the writes in flight |
| `InboxRuns.OverflowEvictsOldest` | inbox_budget.go:247-290 | with removals that succeed the periodic pass removes the oldest files beyond the count and, only if the rest is over the byte cap, the fewest next-oldest that reach the low-water mark (or the cap), and leaves the inbox within count and cap |
| `InboxRuns.HeadroomNeedsNoScan` | inbox_budget.go:185-211 | while the demand fits under the cap, every reservation is admitted and none lists anything, whatever is written, settled or deleted in between |
| `InboxRuns.TrimBuysHeadroom` | inbox_budget.go:185-211 | after a trim to low water the message it was for and the next max − lowWater bytes are admitted, without a listing |
| `Inbox.InboxBudget.ScanInbox` | inbox_budget.go:79-98 | lists each file once and sums their sizes |
| `Inbox.InboxBudget.RescanLocked` | inbox_budget.go:130-149 | the files not in flight and exactly their total |
| `Inbox.InboxBudget.RemoveOldest` | inbox_budget.go:110-124 | evicts in an oldest-first order of the settled files, as the specification does; files that cannot be removed still count |
| `Inbox.InboxBudget.ReserveInbox` | inbox_budget.go:165-212 | the reservation of the specification, with its seeding listing and its second one each failing or not, evicting oldest first |
| `Inbox.InboxBudget.InboxWriteDone` | inbox_budget.go:216-228 | settles as the specification does |
| `Inbox.InboxBudget.EvictInboxOverflow` | inbox_budget.go:247-290 | the count trim, then the byte trim, over one oldest-first listing |
| `DedupeSpec.GrantedAgainOnlyWhenForgotten` | dedupe.go:90-170 | in any history a key is granted only when no delivery of it is unfinished and, for each earlier store of it, the window has passed or `max` deliveries of other keys were stored since |
| `DedupeSpec.GrantedIffForgotten` | dedupe.go:103-170 | in any history a key is granted exactly if no delivery of it is unfinished and none was stored within the window and among the last `max` |
| `DedupeSpec.RecentStoreIsKnown` | dedupe.go:124-134 | a delivery stored within the window and among the last `max` is never granted again |
| `DedupeSpec.DuplicatesReplayStored` | dedupe.go:103-122 | every duplicate answer replays the ACK of a stored delivery of that key |
| `DedupeSpec.FailedIsForgotten` | dedupe.go:136-150 | a failed delivery is granted again at once |
| `DedupeSpec.ExpireLeavesNone` | dedupe.go:152-156 | with expiries in order, dropping the expired front leaves no expired record and drops nothing else |
| `DedupeSpec.RunInv` | dedupe.go:124-170 | in every history what is remembered is exactly the newest stores, each key once and none also in flight |
| `Dedupe.DeliveryDedupe.SliceBound` | dedupe.go:158-170 | between calls (as the constructor, `Begin` and `Finish` leave it) at most `max` deliveries are remembered and the slice has at most max(2·max, max+64) slots |
| `Dedupe.DeliveryDedupe.PopLocked` | dedupe.go:158-170 | forgets the oldest record; clearing and compaction change nothing else, and `head <= 64` or `2*head <= len(order)` again |
| `Dedupe.DeliveryDedupe.ExpireLocked` | dedupe.go:152-156 | the loop is the specification's expiry |
| `Dedupe.DeliveryDedupe.Begin` | dedupe.go:124-134 | grants exactly a key neither in flight nor remembered after expiry; otherwise returns the entry that stands for it |
| `Dedupe.DeliveryDedupe.Finish` | dedupe.go:136-150 | a stored delivery is remembered last and the oldest beyond `max` go; a failed one leaves nothing |
| `Dedupe.DeliveryDedupe.Recheck` | dedupe.go:103-122 | a waiter is told "duplicate" exactly if its entry is still current, with the ACK of the remembered delivery |
| `DeliveryKey.KeyTextInjective` | dedupe.go:194-212 | equal hash inputs mean the same sender and the same frame |
| `Frames.ValidMessageID` | tagged.go:91-105 | the scan accepts exactly 1 to 128 bytes of the ID alphabet |
| `Utf8.ValidIffText` | dataexchange.go:262-290 | a file name passes the UTF-8 check exactly if it encodes some sequence of Unicode scalar values |
| `FrameLaws.PrintHeaderInjective` | tagged.go:119-131 | no two valid tagged headers print alike |
| `HeaderScan.ScanReadsBack` | tagged.go:152-168 | a scanner of the two-key header reads back every valid header the printer prints |
| `HeaderScan.ScanIff` | tagged.go:119-168 | it yields a valid header exactly from the bytes the printer gives for it, so the two are inverses |
| `FrameLaws.SentIsDelivered` | dataexchange.go:179-290 | whatever follows on the stream, a frame the reader accepts and that fits is read as sent, IDs included, less a file name on a frame that is not a FILE |
| `FrameLaws.RoundTripIff` | dataexchange.go:154-290 | a frame comes back as itself with the rest of the stream exactly if the reader accepts it, it fits and it has no stray file name; no other frame is ever read back as itself |
| `FrameLaws.StreamRoundTripIff` | dataexchange.go:154-290 | a sequence of frames, tagged or not, comes back from the concatenated output exactly if each frame does |
| `FileNames.ReadIsClean` | dataexchange.go:222-290 | whatever bytes come in, a frame that is read is not a TAGGED one; its IDs are empty or 1 to 128 letters, digits, `-`, `_`, `.`, `:`; a FILE name is UTF-8 text of at most 255 bytes without slash or backslash and not `.` or `..`, and no other frame has one |
| `FileNames.FilePayloadRead` | dataexchange.go:262-290 | any FILE payload: too short for the name its first two bytes announce it is taken whole without a name, else split behind the name exactly if the name is such a one, else refused |
| `FileNames.WrapperRead` | tagged.go:152-175 | any wrapper is opened exactly if its header has 1 to 1024 bytes that parse to such IDs and the frame inside is no wrapper and can be read |
| `FrameLaws.TruncatedIsRefused` | dataexchange.go:222-258 | a frame cut off anywhere is not read |
| `Wire.BigByte` | dataexchange.go:195-197 | integers are big-endian: byte i counts the multiples of 256 to the number of bytes behind it |
| `Layout.FrameLayout` | dataexchange.go:154-214 | where type, length, file name, IDs (as JSON text), inner type and payload are in the bytes of any frame |
| `FrameLaws.UnsendableIsRefused` | dataexchange.go:222-290 | below 4 GiB a written frame that does not fit or has a bad name is refused, never misread |
| `FrameLaws.LengthWraps` | dataexchange.go:195-290 | an untagged frame of any type and any length is read as what its first (length mod 2^32) payload bytes parse to, with reading going on in its middle, or refused if that length is over the cap |
| `FrameLaws.FourGiBIsMisread` | dataexchange.go:195-258 | a text of exactly 4 GiB is read as an empty one with its payload still to come |
| `FrameLaws.RefusedUnlessMisread` | dataexchange.go:195-290 | a written frame that does not fit or has a bad name is refused exactly unless it is 4 GiB or more, wraps to a length within the cap, and what is left of it parses |
| `FrameLaws.TagOverhead` | tagged.go:56-61 | tagging adds at most 293 bytes, and exactly that for two IDs of full length |
| `FrameLaws.Taggable` | tagged.go:56-61 | a payload of at most MaxFrameSize − 293 bytes can be tagged |
| `FrameIO.FillTagged` | tagged.go:119-148 | the buffer filled field by field is the wrapped payload, with the same errors |
| `FrameIO.Conn.WriteFrame` | dataexchange.go:179-214 | appends exactly the frame's wire form, or nothing on an error |
| `FrameIO.Conn.ReadFrame` | dataexchange.go:222-258 | consumes exactly one frame of the stream, with the parser's result |
| `StreamCodec.ControlRoundTrip` | filestream.go:80-168 | every control message decodes to itself, but for an INIT name cut at 255 bytes |
| `StreamCodec.ControlOverWire` | filestream.go:80-168 | through the frame layer, whatever the body's length: a control message is decoded as sent exactly if it fits the frame cap and has no INIT name over 255 bytes, and one that fits always arrives |
| `Layout.ControlLayout` | filestream.go:80-168 | the kind bytes 1 to 7, the id, the fields of each body in order, and the status byte 0 of a COMPLETE that is OK |
| `Layout.MalformedExactly` | filestream.go:89-168 | exactly which control frames are malformed |
| `TraceCodec.TraceRoundTrip` | dataexchange.go:61-82 | traces with any int64 time come back, and a trace frame is the encoding of what it decodes to |
| `Layout.TraceLayout` | dataexchange.go:61-68 | inner type, time and message of a trace frame, in this order |
| `Names.TypeNameInjective` | dataexchange.go:327-350 | no two of all uint32 types share a name |
| `Answers.CurrentNeverPredates` | service.go:302-398 | for every frame of every type, no answer of the current service (ACK, ERR, duplicate, trace, stream) matches the prefixes of a receiver that predates tags |
| `Answers.OlderAlwaysPredates` | client.go:58-91 | both older answer forms to a tagged frame match, and nothing is stored |
| `Answers.AckTells` | service.go:391-397 | two ACKs are the same exactly if they are of frames of one type and one length |
| `Answers.AckReads` | service.go:391-397 | a text of five bytes is answered `ACK TEXT 5 bytes` |
| `Answers.AnswersExactly` | service.go:386-397 | types 1 to 4 get their ACK, or the error if saving failed, which is not tried for a FILE without a name; any other type but trace and stream frames is refused as unsupported |
| `Service.HandleKeepsCache` | service.go:302-398 | whatever frame is handled, after whatever time, the caches by ID and by content remember exactly the newest stored deliveries within window and size, each with its own ACK, and what they remember was stored |
| `Service.StoredExactly` | service.go:327-390 | of a frame that is not suppressed exactly this is stored: types 1 to 4 as they are, but no FILE without a name; of a trace the message inside, with the IDs; of others, and when saving fails, nothing |
| `Service.OwnCacheDecides` | dedupe.go:182-225 | only types 1 to 4 are suppressed, a frame with an ID by the cache of IDs and one without by the cache of contents, and handling it changes no other cache |
| `Service.ReachableCacheOk` | service.go:302-398 | so they are after any frames a service got since it started |
| `Service.KnownIsAcked` | service.go:302-321 | a suppressed frame is answered with the ACK of that very frame, and a storable one was stored |
| `Send.ExchangeHandles` | client.go:121-158 | the wire is transparent: the handler gets the frame as sent (an older one the wrapper) and the client exactly its answer, or an error if that is over the frame cap |
| `Send.AnswerTellsStored` | service.go:391-398 | ACK, ERR and duplicate answers tell exactly whether one copy was stored now, none, or one before |
| `Resend.ResendsStoreOnce` | service.go:302-398 | however often a message is sent again among other traffic, while the window since its first delivery has not passed and fewer than `max` deliveries were stored since, there is one copy of it |
| `Resend.FreshServiceStoresOnce` | service.go:302-398 | the same for a service that just started and handled any frames before |
| `Resend.ResendIsDuplicate` | service.go:302-321 | and each time it comes again within those limits it is answered as a duplicate and not stored |
| `Resend.DuplicateIffInWindow` | dedupe.go:216-225 | when a stored message comes again after fewer than `max` other frames, it is a duplicate exactly if the window of its cache (of IDs if it has one) has not passed, and is stored once more otherwise |
| `Send.FirstAnswer` | client.go:121-158 | an answer that is heard makes Send fall back exactly for a tagged frame to an older receiver, which is left as it was |
| `Send.SendsWhatFits` | client.go:121-134 | what can be sent without its IDs is sent, and with them exactly if there is room for them |
| `Send.Link.SendAndAwaitAck` | client.go:121-158 | nothing happens if no form can be written; one frame goes to a current service, two to an older one whose answer to the tag is heard; the last frame handled carries the IDs exactly if `Tagged`; a storable message is stored exactly once unless rejected or reported as a duplicate of a stored one, and not at all if no answer is heard |

## Left out

- Send.Link.SendAndAwaitAck: of a hand-built TAGGED frame without IDs, which callers never set, and of one of 4 GiB or more on the wire it says only what the one exchange was, not what the service makes of the bytes behind the first frame it reads; connection failures after a write are not modelled.
- Send.FirstAnswer: error texts and stream replies are under 2 GiB each; older generations are modelled from the client's description of their answers only.
- Resend.ResendsStoreOnce: a sender's deliveries are handled one after the other; concurrent copies are `DedupeSpec`'s subject. A trace frame around the same message is not deduplicated by the source either, and is excluded.
- Progress.QuietRunsEndOk: stated for a .partial that is a prefix of the content; recovery from a corrupt .partial is not modelled.
- Origins.AllFromInits: an installed file has at least the declared size, not exactly it: the source goes on when emptying a stale .partial fails, and only the digest tells then.
- Endings.NextInitResumes: for a transfer of the shared .partial; a private one is removed when it ends, and there is nothing to resume.
- Admission.AdmittedStaysInside: each INIT takes its own snapshot of the directory, so nothing is claimed of several transfers that share one quota.
- Session.OkResultMatchesDigest: the sender's loop is a state machine of its turns rather than a `while` loop, because its reader goroutine runs between any two of them.
- Dedupe.DeliveryDedupe.Recheck: entries are identities in a table rather than pointers, and waiting on the entry's channel is the caller's.
- Inbox.InboxBudget.ReserveInbox: sums of sizes do not wrap at 64 bits; the disabled byte cap, a change of directory and the inbox rollback are not modelled.
- Handlers as one method: `handleInit` and `handleDone` are step functions of the shared world, since other receivers act in their middle; only the claim table and chunk handling are also classes.
- JSON beyond the printed tagged header, random names, SHA-256 itself, Windows volume names in file names.
- TypeFile frames without a file name are acknowledged and not stored; no claim says otherwise.
- Timeouts, idle deadlines, the file system's own errors beyond failing, sockets, logging, events, `server.go`, the disabled build, examples and platform disk code.
